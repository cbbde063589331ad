/** A program that loses a process under readyProcessIfNecessary as written: two
    outputters find the same inputter, with another process readied in between. */
module LostProcess {
  import opened Types
  import opened Alt
  import opened AltChannels
  import opened Scheduler
  import opened SchedulerInv
  import opened SchedulerMoves
  import opened SchedulerRuns
  import opened SchedulerText
  import Sequences

  // Process 0 inputs from channels 0 and 1, process 1 from channel 2; processes
  // 2, 3 and 4 output on channels 0, 2 and 1.

  function Wires(): Wiring {
    Wiring([0, 0, 1], [2, 4, 3])
  }

  function GuardsOf(p: Pid): seq<Guard> {
    if p == 0 then [Guard(ChanIn(0, 0), true), Guard(ChanIn(1, 0), true)]
    else if p == 1 then [Guard(ChanIn(2, 0), true)]
    else [Guard(ChanOut(if p == 2 then 0 else if p == 3 then 2 else 1, 0), true)]
  }

  function Ran(p: Pid): Outcome {
    Outcome(Alternation(GuardsOf(p), 0, 0, false), [0], false)
  }

  lemma CodeBehaves(p: Pid)
    requires p < 5
    ensures Behaved(Wires(), p, Ran(p).alt, Ran(p).vars)
    ensures OutIndex(GuardsOf(p)) == (if p == 0 then 2 else if p == 1 then 1 else 0) && !HasSkip(GuardsOf(p))
  {
  }

  /** States of the processes, occupants of the channels, queue and held process. */
  predicate Snapshot(s: Sys, states: seq<PState>, waiting: seq<Option<Pid>>, ready: seq<Pid>, held: Option<Pid>) {
    && |s.procs| == |states| == 5 && |s.cells| == |waiting| == 3
    && (forall p :: 0 <= p < 5 ==> s.procs[p].state == states[p])
    && (forall p :: 0 <= p < 5 && states[p] != INITIAL ==> s.procs[p].alt.guards == GuardsOf(p))
    && (forall c :: 0 <= c < 3 ==> s.cells[c].waiting == waiting[c])
    && s.ready == ready && s.held == held
  }

  /** The process at the head of the queue runs for the first time. */
  lemma Starts(s: Sys, states: seq<PState>, waiting: seq<Option<Pid>>, ready: seq<Pid>)
    requires Inv(Wires(), s) && Snapshot(s, states, waiting, ready, None) && ready != [] && ready[0] < 5 && states[ready[0]] == INITIAL
    ensures CanStep(s) && Inv(Wires(), Step(Intended, s, Ran(ready[0])))
    ensures Snapshot(Step(Intended, s, Ran(ready[0])), states[ready[0] := QUIESCENT], waiting, ready[1..], Some(ready[0]))
  {
    CodeBehaves(ready[0]);
    InvStep(Wires(), s, Ran(ready[0]));
  }

  /** Which kind of iteration it is when process `p` has run its code. */
  lemma MoveIs(s: Sys, states: seq<PState>, waiting: seq<Option<Pid>>, ready: seq<Pid>, p: Pid)
    requires Inv(Wires(), s) && Snapshot(s, states, waiting, ready, Some(p)) && p < 5 && states[p] == QUIESCENT
    requires p == 0 ==> waiting[0] == waiting[1] == None
    requires p == 1 ==> waiting[2] == None
    ensures CanStep(s) && Inv(Wires(), Step(Intended, s, Ran(p)))
    ensures Moves(Intended, s, if p < 2 then Wait else Offer(GuardsOf(p)[0].kind.chan, 0), Ran(p), Step(Intended, s, Ran(p)))
    ensures p >= 2 ==> MoveOf(s) == Offer(GuardsOf(p)[0].kind.chan, 0)
  {
    CodeBehaves(p);
    InvStep(Wires(), s, Ran(p));
    StepMoves(Wires(), Intended, s, Ran(p));
  }

  /** An inputter none of whose channels is occupied waits in them. */
  lemma Waits(s: Sys, states: seq<PState>, waiting: seq<Option<Pid>>, ready: seq<Pid>, p: Pid, s': Sys)
    requires Snapshot(s, states, waiting, ready, Some(p)) && p < 2 && states[p] == QUIESCENT
    requires Moves(Intended, s, Wait, Ran(p), s')
    requires if p == 0 then waiting[0] == waiting[1] == None else waiting[2] == None
    ensures Snapshot(s', states[p := WAITING],
                     if p == 0 then waiting[0 := Some(0)][1 := Some(0)] else waiting[2 := Some(1)], ready, None)
  {
    var g := GuardsOf(p);
    assert InputOn(g[0], if p == 0 then 0 else 2) && (p == 0 ==> InputOn(g[1], 1));
    assert Offers(g, 0) == Offers(g, 1) == (p == 0) && Offers(g, 2) == (p == 1);
  }

  /** An outputter offers its value and readies a waiting inputter. */
  lemma OffersTo(s: Sys, states: seq<PState>, waiting: seq<Option<Pid>>, ready: seq<Pid>, p: Pid, c: nat, q: Pid, s': Sys)
    requires Snapshot(s, states, waiting, ready, Some(p)) && 2 <= p < 5 && states[p] == QUIESCENT
    requires c == GuardsOf(p)[0].kind.chan && waiting[c] == Some(q) && q < 2 && states[q] == WAITING && q !in ready
    requires Moves(Intended, s, Offer(c, 0), Ran(p), s')
    ensures Snapshot(s', states[p := WAITING][q := READY], waiting[c := Some(p)], ready + [q], None)
  {
  }

  /** What a snapshot becomes once process `p`, whose code has run, has committed to its ALT. */
  datatype Shot = Shot(states: seq<PState>, waiting: seq<Option<Pid>>, ready: seq<Pid>)

  predicate Shows(s: Sys, shot: Shot, held: Option<Pid>) {
    Snapshot(s, shot.states, shot.waiting, shot.ready, held)
  }

  /** The inputter's channels are empty, or the outputter's holds a waiting inputter. */
  predicate CanCommit(p: Pid, shot: Shot) {
    && |shot.states| == 5 && |shot.waiting| == 3 && p < 5
    && if p == 0 then shot.waiting[0] == shot.waiting[1] == None
       else if p == 1 then shot.waiting[2] == None
       else var w := shot.waiting[GuardsOf(p)[0].kind.chan];
            w.Some? && w.value < 2 && shot.states[w.value] == WAITING && w.value !in shot.ready
  }

  function Committed(p: Pid, shot: Shot): Shot
    requires CanCommit(p, shot)
  {
    if p == 0 then Shot(shot.states[0 := WAITING], shot.waiting[0 := Some(0)][1 := Some(0)], shot.ready)
    else if p == 1 then Shot(shot.states[1 := WAITING], shot.waiting[2 := Some(1)], shot.ready)
    else
      var c := GuardsOf(p)[0].kind.chan;
      var q := shot.waiting[c].value;
      Shot(shot.states[p := WAITING][q := READY], shot.waiting[c := Some(p)], shot.ready + [q])
  }

  lemma Commits(s: Sys, shot: Shot, p: Pid)
    requires Inv(Wires(), s) && Shows(s, shot, Some(p)) && CanCommit(p, shot) && shot.states[p] == QUIESCENT
    ensures CanStep(s) && Inv(Wires(), Step(Intended, s, Ran(p)))
    ensures Shows(Step(Intended, s, Ran(p)), Committed(p, shot), None)
  {
    MoveIs(s, shot.states, shot.waiting, shot.ready, p);
    var s' := Step(Intended, s, Ran(p));
    if p < 2 {
      Waits(s, shot.states, shot.waiting, shot.ready, p, s');
    } else {
      var c := GuardsOf(p)[0].kind.chan;
      OffersTo(s, shot.states, shot.waiting, shot.ready, p, c, shot.waiting[c].value, s');
    }
  }

  /** The process at the head of the queue runs its code for the first time. */
  function Started(shot: Shot): Shot
    requires shot.ready != [] && shot.ready[0] < |shot.states|
  {
    Shot(shot.states[shot.ready[0] := QUIESCENT], shot.waiting, shot.ready[1..])
  }

  /** The head of the queue runs for the first time, and then commits; `os` continues the run. */
  lemma Turn(s: Sys, shot: Shot) returns (s': Sys)
    requires Inv(Wires(), s) && Shows(s, shot, None) && shot.ready != [] && shot.ready[0] < 5
    requires shot.states[shot.ready[0]] == INITIAL && CanCommit(shot.ready[0], Started(shot))
    ensures Inv(Wires(), s') && Shows(s', Committed(shot.ready[0], Started(shot)), None)
    ensures Leads(s, shot.ready[0], s')
  {
    var p := shot.ready[0];
    Starts(s, shot.states, shot.waiting, shot.ready);
    var s1 := Step(Intended, s, Ran(p));
    Commits(s1, Started(shot), p);
    s' := Step(Intended, s1, Ran(p));
  }

  predicate Leads(s: Sys, p: Pid, s': Sys) {
    && CanStep(s) && Current(s) == p
    && var s1 := Step(Intended, s, Ran(p));
       CanStep(s1) && Current(s1) == p && s' == Step(Intended, s1, Ran(p))
  }

  lemma PrependTurn(s: Sys, p: Pid, s': Sys, os: seq<Outcome>, end: Sys)
    requires p < 5 && Leads(s, p, s') && GoodRun(Wires(), s', os) && RunAll(Wires(), s', os) == end
    ensures GoodRun(Wires(), s, [Ran(p)] + ([Ran(p)] + os)) && RunAll(Wires(), s, [Ran(p)] + ([Ran(p)] + os)) == end
  {
    CodeBehaves(p);
    Prepend(Wires(), Step(Intended, s, Ran(p)), Ran(p), os, end);
    Prepend(Wires(), s, Ran(p), [Ran(p)] + os, end);
  }

  function Begin(): Sys {
    var new0 := Proc(INITIAL, Alternation([], 0, 0, false), [0]);
    Sys([new0, new0, new0, new0, new0], [Cell(None, None), Cell(None, None), Cell(None, None)], [0, 1, 2, 3, 4], None)
  }

  const S0: Shot := Shot([INITIAL, INITIAL, INITIAL, INITIAL, INITIAL], [None, None, None], [0, 1, 2, 3, 4])
  const S1: Shot := Shot([WAITING, INITIAL, INITIAL, INITIAL, INITIAL], [Some(0), Some(0), None], [1, 2, 3, 4])
  const S2: Shot := Shot([WAITING, WAITING, INITIAL, INITIAL, INITIAL], [Some(0), Some(0), Some(1)], [2, 3, 4])
  const S3: Shot := Shot([READY, WAITING, WAITING, INITIAL, INITIAL], [Some(2), Some(0), Some(1)], [3, 4, 0])
  const S4: Shot := Shot([READY, READY, WAITING, WAITING, INITIAL], [Some(2), Some(0), Some(3)], [4, 0, 1])
  const S5: Shot := Shot([READY, READY, WAITING, WAITING, QUIESCENT], [Some(2), Some(0), Some(3)], [0, 1])

  lemma InputShots()
    ensures CanCommit(0, Started(S0)) && Committed(0, Started(S0)) == S1
    ensures CanCommit(1, Started(S1)) && Committed(1, Started(S1)) == S2
  {
  }

  lemma OutputShots()
    ensures CanCommit(2, Started(S2)) && Committed(2, Started(S2)) == S3
    ensures CanCommit(3, Started(S3)) && Committed(3, Started(S3)) == S4
  {
  }

  lemma InputTurns(s0: Sys) returns (s1: Sys, s2: Sys)
    requires Inv(Wires(), s0) && Shows(s0, S0, None)
    ensures Leads(s0, 0, s1) && Leads(s1, 1, s2) && Inv(Wires(), s2) && Shows(s2, S2, None)
  {
    InputShots();
    s1 := Turn(s0, S0);
    s2 := Turn(s1, S1);
  }

  lemma OutputTurns(s2: Sys) returns (s3: Sys, s4: Sys)
    requires Inv(Wires(), s2) && Shows(s2, S2, None)
    ensures Leads(s2, 2, s3) && Leads(s3, 3, s4) && Inv(Wires(), s4) && Shows(s4, S4, None)
  {
    OutputShots();
    s3 := Turn(s2, S2);
    s4 := Turn(s3, S3);
  }

  /** The scheduler reaches a state in which process 4 is about to output to
      process 0, which is queued before process 1. */
  lemma ReachesLoss() returns (os: seq<Outcome>)
    ensures Initial(Wires(), Begin()) && GoodRun(Wires(), Begin(), os)
    ensures Inv(Wires(), RunAll(Wires(), Begin(), os)) && Shows(RunAll(Wires(), Begin(), os), S5, Some(4))
  {
    BeginsInitial();
    assert Started(S4) == S5;
    var s0 := Begin();
    InvAtStart(Wires(), s0);
    var s1, s2 := InputTurns(s0);
    var s3, s4 := OutputTurns(s2);
    Starts(s4, S4.states, S4.waiting, S4.ready);
    var s5 := Step(Intended, s4, Ran(4));
    CodeBehaves(4);
    Prepend(Wires(), s4, Ran(4), [], s5);
    PrependTurn(s3, 3, s4, [Ran(4)] + [], s5);
    var os3 := [Ran(3)] + ([Ran(3)] + ([Ran(4)] + []));
    PrependTurn(s2, 2, s3, os3, s5);
    var os2 := [Ran(2)] + ([Ran(2)] + os3);
    PrependTurn(s1, 1, s2, os2, s5);
    PrependTurn(s0, 0, s1, [Ran(1)] + ([Ran(1)] + os2), s5);
    os := [Ran(0)] + ([Ran(0)] + ([Ran(1)] + ([Ran(1)] + os2)));
  }

  lemma BeginsInitial()
    ensures Initial(Wires(), Begin()) && Shows(Begin(), S0, None)
  {
  }

  /** In a run from the start, the next output under the text as written leaves
      process 1 ready but in no queue and held by no one; as intended it stays queued. */
  lemma LosesProcess() returns (os: seq<Outcome>)
    ensures Initial(Wires(), Begin()) && GoodRun(Wires(), Begin(), os)
    ensures var s := RunAll(Wires(), Begin(), os);
            && CanStep(s) && ReadiesAgain(s)
            && (var a := Step(Written, s, Ran(4)); a.procs[1].state == READY && 1 !in a.ready && a.held == None)
            && (var b := Step(Intended, s, Ran(4)); b.procs[1].state == READY && 1 in b.ready)
  {
    os := ReachesLoss();
    LastOutput(RunAll(Wires(), Begin(), os));
  }

  lemma LastOutput(s: Sys)
    requires Inv(Wires(), s) && Shows(s, S5, Some(4))
    ensures CanStep(s) && ReadiesAgain(s)
    ensures var a := Step(Written, s, Ran(4)); |a.procs| == 5 && a.procs[1].state == READY && 1 !in a.ready && a.held == None
    ensures var b := Step(Intended, s, Ran(4)); |b.procs| == 5 && b.procs[1].state == READY && 1 in b.ready
  {
    MoveIs(s, S5.states, S5.waiting, S5.ready, 4);
    OfferTexts(Wires(), s, Ran(4));
    StepMoves(Wires(), Written, s, Ran(4));
    assert Sequences.IndexOf([0, 1], 0) == 0;
  }
}
