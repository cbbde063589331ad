/** Whole runs of the scheduler. */
module SchedulerRuns {
  import opened Types
  import opened Sequences
  import opened AltChannels
  import opened Scheduler
  import opened SchedulerInv
  import opened SchedulerMoves
  import opened Network
  import opened Refinement

  /** `os` are the outcomes of a run from `s` in which every process behaves. */
  ghost predicate GoodRun(wr: Wiring, s: Sys, os: seq<Outcome>)
    requires |wr.inputter| == |wr.outputter|
    decreases |os|
  {
    os == [] ||
    (Running(s) && CanStep(s) && Behaved(wr, Current(s), os[0].alt, os[0].vars)
     && GoodRun(wr, Step(Intended, s, os[0]), os[1..]))
  }

  ghost function RunAll(wr: Wiring, s: Sys, os: seq<Outcome>): (s': Sys)
    requires |wr.inputter| == |wr.outputter| && GoodRun(wr, s, os)
    ensures |s'.procs| == |s.procs|
    decreases |os|
  {
    if os == [] then s else RunAll(wr, Step(Intended, s, os[0]), os[1..])
  }

  /** Every reachable state satisfies the invariant. */
  lemma {:induction false} InvRuns(wr: Wiring, s: Sys, os: seq<Outcome>)
    requires Inv(wr, s) && GoodRun(wr, s, os)
    ensures Inv(wr, RunAll(wr, s, os))
    decreases |os|
  {
    if os != [] {
      InvStep(wr, s, os[0]);
      InvRuns(wr, Step(Intended, s, os[0]), os[1..]);
    }
  }

  /** The network steps a run performs. */
  ghost function LabelsOfRun(wr: Wiring, s: Sys, os: seq<Outcome>): seq<Label>
    requires Inv(wr, s) && GoodRun(wr, s, os)
    decreases |os|
  {
    if os == [] then []
    else
      InvStep(wr, s, os[0]);
      LabelsOf(wr, s, os[0]) + LabelsOfRun(wr, Step(Intended, s, os[0]), os[1..])
  }

  lemma Prepend(wr: Wiring, s: Sys, o: Outcome, os: seq<Outcome>, end: Sys)
    requires |wr.inputter| == |wr.outputter| && CanStep(s) && Behaved(wr, Current(s), o.alt, o.vars)
    requires GoodRun(wr, Step(Intended, s, o), os) && RunAll(wr, Step(Intended, s, o), os) == end
    ensures GoodRun(wr, s, [o] + os) && RunAll(wr, s, [o] + os) == end
  {
    assert ([o] + os)[1..] == os;
  }

  /** A run that has not gone idle goes on with whatever well-behaved code does next. */
  lemma {:induction false} RunGoesOn(wr: Wiring, s: Sys, os: seq<Outcome>, o: Outcome)
    requires Inv(wr, s) && GoodRun(wr, s, os) && Running(RunAll(wr, s, os))
    requires Behaved(wr, Current(RunAll(wr, s, os)), o.alt, o.vars)
    ensures Inv(wr, RunAll(wr, s, os)) && CanStep(RunAll(wr, s, os))
    ensures GoodRun(wr, s, os + [o]) && RunAll(wr, s, os + [o]) == Step(Intended, RunAll(wr, s, os), o)
    decreases |os|
  {
    InvRuns(wr, s, os);
    if os == [] {
      InvStep(wr, s, o);
      assert os + [o] == [o] && [o][1..] == [];
    } else {
      InvStep(wr, s, os[0]);
      var end := RunAll(wr, s, os);
      RunGoesOn(wr, Step(Intended, s, os[0]), os[1..], o);
      Prepend(wr, s, os[0], os[1..] + [o], Step(Intended, end, o));
      ConcatFirst(os, [o]);
    }
  }

  lemma FirstLabels(wr: Wiring, s: Sys, os: seq<Outcome>, o: Outcome)
    requires os != [] && Inv(wr, s) && GoodRun(wr, s, os) && GoodRun(wr, s, os + [o])
    ensures Inv(wr, Step(Intended, s, os[0])) && GoodRun(wr, Step(Intended, s, os[0]), os[1..] + [o])
    ensures LabelsOfRun(wr, s, os + [o]) == LabelsOf(wr, s, os[0]) + LabelsOfRun(wr, Step(Intended, s, os[0]), os[1..] + [o])
  {
    InvStep(wr, s, os[0]);
    assert (os + [o])[1..] == os[1..] + [o];
  }

  lemma {:induction false} LabelsGoOn(wr: Wiring, s: Sys, os: seq<Outcome>, o: Outcome)
    requires Inv(wr, s) && GoodRun(wr, s, os) && GoodRun(wr, s, os + [o])
    requires Inv(wr, RunAll(wr, s, os)) && Running(RunAll(wr, s, os))
    ensures LabelsOfRun(wr, s, os + [o]) == LabelsOfRun(wr, s, os) + LabelsOf(wr, RunAll(wr, s, os), o)
    decreases |os|
  {
    if os == [] {
      assert os + [o] == [o] && [o][1..] == [];
    } else {
      FirstLabels(wr, s, os, o);
      LabelsGoOn(wr, Step(Intended, s, os[0]), os[1..], o);
    }
  }

  /** Every run of the scheduler is a run of the network of communicating processes. */
  lemma {:induction false} RunIsNetworkRun(wr: Wiring, s: Sys, os: seq<Outcome>)
    requires Inv(wr, s) && GoodRun(wr, s, os)
    ensures CanDoAll(wr, NetOf(s), LabelsOfRun(wr, s, os))
    ensures DoAll(wr, NetOf(s), LabelsOfRun(wr, s, os)) == NetOf(RunAll(wr, s, os))
    decreases |os|
  {
    if os != [] {
      InvStep(wr, s, os[0]);
      StepRefines(wr, s, os[0]);
      var s' := Step(Intended, s, os[0]);
      RunIsNetworkRun(wr, s', os[1..]);
      DoAllConcat(wr, NetOf(s), LabelsOf(wr, s, os[0]), LabelsOfRun(wr, s', os[1..]));
    }
  }

  /** On every channel the values the inputter's code is run on are the values the
      outputter's code offered, in order and once each; only the value being
      offered now may be outstanding. The outputter's code runs once per value
      that has crossed, except the last, whose run is owed while the outputter is
      in the ready queue. */
  lemma ExactlyOnce(wr: Wiring, s: Sys, os: seq<Outcome>, c: nat)
    requires Initial(wr, s) && Inv(wr, s) && GoodRun(wr, s, os) && c < |wr.inputter|
    ensures var ls, n := LabelsOfRun(wr, s, os), NodeOf(RunAll(wr, s, os).procs[wr.outputter[c]]);
            && Offered(wr, ls, c) == Seen(wr, ls, c) + OfferOf(n, c)
            && Crossed(ls, c) == Seen(wr, ls, c)
            && |Seen(wr, ls, c)| == Ended(wr, ls, c) + Owes(n, c)
  {
    SeenOnce(wr, s, os, c);
    OfferedOnce(wr, s, os, c);
    RunIsNetworkRun(wr, s, os);
    OneRunPerCrossing(wr, NetOf(s), LabelsOfRun(wr, s, os), c);
    assert NodeOf(s.procs[wr.outputter[c]]).Fresh?;
  }

  lemma OfferedOnce(wr: Wiring, s: Sys, os: seq<Outcome>, c: nat)
    requires Initial(wr, s) && Inv(wr, s) && GoodRun(wr, s, os) && c < |wr.inputter|
    ensures var ls, n := LabelsOfRun(wr, s, os), NodeOf(RunAll(wr, s, os).procs[wr.outputter[c]]);
            Offered(wr, ls, c) == Crossed(ls, c) + OfferOf(n, c)
  {
    RunIsNetworkRun(wr, s, os);
    var ls := LabelsOfRun(wr, s, os);
    OfferedCrosses(wr, NetOf(s), ls, c);
    assert NodeOf(s.procs[wr.outputter[c]]).Fresh?;
    assert [] + Offered(wr, ls, c) == Offered(wr, ls, c);
  }

  lemma SeenOnce(wr: Wiring, s: Sys, os: seq<Outcome>, c: nat)
    requires Initial(wr, s) && Inv(wr, s) && GoodRun(wr, s, os) && c < |wr.inputter|
    ensures Crossed(LabelsOfRun(wr, s, os), c) == Seen(wr, LabelsOfRun(wr, s, os), c)
  {
    RunIsNetworkRun(wr, s, os);
    var ls, q := LabelsOfRun(wr, s, os), wr.inputter[c];
    CrossedIsSeen(wr, NetOf(s), ls, c);
    NoReceipt(RunAll(wr, s, os).procs[q], c);
    assert NodeOf(s.procs[q]).Fresh?;
    assert [] + Crossed(ls, c) == Crossed(ls, c);
    assert Seen(wr, ls, c) + [] == Seen(wr, ls, c);
  }

  /** Between iterations no value has been received that the code has not seen. */
  lemma NoReceipt(pr: Proc, c: nat)
    ensures ReceiptOf(NodeOf(pr), c) == []
  {
  }

  // ---------- deadlock ----------

  ghost predicate Stuck(wr: Wiring, net: Net)
    requires ValidWiring(wr, |net|)
  {
    forall l :: !CanDo(wr, net, l)
  }

  /** No lost wakeup: when the scheduler has nothing to run, every process waits
      or has terminated and no channel has both its partners committed to it. */
  lemma IdleIsDeadlock(wr: Wiring, s: Sys)
    requires Inv(wr, s) && !Running(s)
    ensures Stuck(wr, NetOf(s))
    ensures forall p :: 0 <= p < |s.procs| ==> s.procs[p].state in {WAITING, DONE}
  {
    assert forall p :: 0 <= p < |s.procs| ==> WaitingOk(s, p) && s.procs[p].state in {WAITING, DONE};
    forall l ensures !CanDo(wr, NetOf(s), l) {
      match l
      case Comm(c, i, v) => NoPair(wr, s, c, i, v);
      case Choose(p, i) =>
      case Init(p, _) =>
      case Run(p, _, _) =>
    }
  }

  /** A channel cannot name both its waiting inputter and its waiting outputter. */
  lemma NoPair(wr: Wiring, s: Sys, c: nat, i: nat, v: int)
    requires Inv(wr, s)
    requires forall p :: 0 <= p < |s.procs| ==> s.procs[p].state in {WAITING, DONE}
    ensures !CanDo(wr, NetOf(s), Comm(c, i, v))
  {
    if c < |wr.inputter| {
      assert WaitingOk(s, wr.outputter[c]) && WaitingOk(s, wr.inputter[c]);
    }
  }

  /** A scheduler whose network is stuck performs at most one more iteration. */
  lemma DeadlockIsIdle(wr: Wiring, s: Sys, o: Outcome)
    requires Inv(wr, s) && Running(s) && Stuck(wr, NetOf(s)) && Behaved(wr, Current(s), o.alt, o.vars)
    ensures CanStep(s) && !Running(Step(Intended, s, o))
  {
    InvStep(wr, s, o);
    StepRefines(wr, s, o);
    StepMoves(wr, Intended, s, o);
    assert LabelsOf(wr, s, o) == [];
    var s' := Step(Intended, s, o);
    assert s'.held == None;
    if s'.ready != [] {
      QueueCanGo(wr, s', o);
    }
  }

  /** Whatever is in the ready queue can make the network move. */
  lemma QueueCanGo(wr: Wiring, s: Sys, o: Outcome)
    requires Inv(wr, s) && s.held == None && s.ready != []
    ensures !Stuck(wr, NetOf(s))
  {
    var p := s.ready[0];
    assert p in s.ready;
    if s.procs[p].state == INITIAL {
      assert CanDo(wr, NetOf(s), Init(p, o));
    } else if HasOutput(s.procs[p].alt.guards) {
      assert CanDo(wr, NetOf(s), Label.Run(p, NodeOf(s.procs[p]), o));
    } else {
      InvCanStep(wr, s);
      StepMoves(wr, Intended, s, o);
      ReadyMoveTakes(wr, s, o);
    }
  }

  lemma ReadyMoveTakes(wr: Wiring, s: Sys, o: Outcome)
    requires Inv(wr, s) && Running(s) && CanStep(s) && s.procs[Current(s)].state == READY
    requires !HasOutput(s.procs[Current(s)].alt.guards)
    ensures !Stuck(wr, NetOf(s))
  {
    StepMoves(wr, Intended, s, o);
    var m := MoveOf(s);
    assert m.Take?;
    TakeValue(wr, s, o, m.branch, m.chan);
    assert CanDo(wr, NetOf(s), Comm(m.chan, m.branch, OutputValue(NetOf(s)[wr.outputter[m.chan]], m.chan)));
  }

  /** At most every second iteration is silent, so the length of a run is bounded
      by the number of network steps it performs. */
  lemma {:induction false} IterationsBounded(wr: Wiring, s: Sys, os: seq<Outcome>)
    requires Inv(wr, s) && GoodRun(wr, s, os)
    ensures |os| <= 2 * |LabelsOfRun(wr, s, os)| + (if s.held.Some? then 1 else 0)
    decreases |os|
  {
    if os != [] {
      InvStep(wr, s, os[0]);
      StepMoves(wr, Intended, s, os[0]);
      var s' := Step(Intended, s, os[0]);
      IterationsBounded(wr, s', os[1..]);
      if s.held == None {
        assert s.ready[0] in s.ready;
        assert s.procs[Current(s)].state in {INITIAL, READY};
      }
    }
  }
}
