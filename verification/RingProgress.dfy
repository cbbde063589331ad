/** Runs of the token rings on the scheduler can always be continued until every
    process has terminated. */
module RingProgress {
  import opened Types
  import opened Scheduler
  import opened SchedulerInv
  import opened SchedulerMoves
  import opened Network
  import opened Sequences
  import opened Refinement
  import opened SchedulerRuns
  import opened SchedulerText
  import opened RingNetwork
  import opened RingScheduled
  import Ring
  import RingLaws

  /** What the code of a process makes of `node`. */
  function CodeOutcome(v: Ring.Variant, s: Ring.Settings, n: nat, p: Pid, node: Node): (o: Outcome)
    requires Shaped(n, p, node)
    ensures Follows(v, s, n, p, node, o)
  {
    if p == 0 then
      var r := SettledRoot(v, s, node);
      Outcome(Alternation(RingGuards(n, p, r.input, r.output), 0, 0, false), RootVars(r), r.done)
    else
      var e := SettledElement(node);
      Outcome(Alternation(RingGuards(n, p, e.input, e.output), 0, 0, false), [e.token], e.done)
  }

  lemma {:induction false} FollowsConcat(v: Ring.Variant, s: Ring.Settings, n: nat, net: Net, a: seq<Label>, b: seq<Label>)
    requires |net| == n + 1 && ValidWiring(RingWiring(n), n + 1) && CanDoAll(RingWiring(n), net, a)
    requires FollowsAll(v, s, n, net, a) && FollowsAll(v, s, n, DoAll(RingWiring(n), net, a), b)
    ensures FollowsAll(v, s, n, net, a + b)
    decreases |a|
  {
    if a == [] {
      assert a + b == b;
    } else {
      FollowsConcat(v, s, n, Do(RingWiring(n), net, a[0]), a[1..], b);
      FollowsFirst(v, s, n, net, a[0], a[1..] + b);
      ConcatFirst(a, b);
    }
  }

  lemma FollowsFirst(v: Ring.Variant, s: Ring.Settings, n: nat, net: Net, l: Label, ls: seq<Label>)
    requires ValidWiring(RingWiring(n), n + 1) && RingNet(n, net) && CanDo(RingWiring(n), net, l) && FollowsLabel(v, s, n, net, l)
    requires FollowsAll(v, s, n, Do(RingWiring(n), net, l), ls)
    ensures FollowsAll(v, s, n, net, [l] + ls)
  {
    assert ([l] + ls)[1..] == ls;
  }

  lemma FollowsOne(v: Ring.Variant, s: Ring.Settings, n: nat, net: Net, l: Label)
    requires |net| == n + 1 && ValidWiring(RingWiring(n), n + 1) && RingNet(n, net)
    requires CanDo(RingWiring(n), net, l) && FollowsLabel(v, s, n, net, l)
    ensures FollowsAll(v, s, n, net, [l])
  {
  }

  lemma FollowsTwo(v: Ring.Variant, s: Ring.Settings, n: nat, net: Net, l: Label, l': Label)
    requires |net| == n + 1 && ValidWiring(RingWiring(n), n + 1) && RingNet(n, net)
    requires CanDo(RingWiring(n), net, l) && FollowsLabel(v, s, n, net, l)
    requires RingNet(n, Do(RingWiring(n), net, l)) && CanDo(RingWiring(n), Do(RingWiring(n), net, l), l')
    requires FollowsLabel(v, s, n, Do(RingWiring(n), net, l), l')
    ensures FollowsAll(v, s, n, net, [l, l'])
  {
    FollowsOne(v, s, n, Do(RingWiring(n), net, l), l');
    assert [l, l'][1..] == [l'];
  }

  /** `o` is a well-behaved outcome for the next iteration that the ring's code prescribes. */
  ghost predicate GoesOn(v: Ring.Variant, s: Ring.Settings, n: nat, sys: Sys, o: Outcome)
    requires 1 <= n && Inv(RingWiring(n), sys) && Running(sys) && |sys.procs| == n + 1
  {
    && Behaved(RingWiring(n), Current(sys), o.alt, o.vars) && LoneGuard(o.alt.guards)
    && FollowsAll(v, s, n, NetOf(sys), LabelsOf(RingWiring(n), sys, o))
  }

  /** A first run, or the run of a process whose output was taken. */
  lemma CodeRunsNext(v: Ring.Variant, s: Ring.Settings, n: nat, sys: Sys) returns (o: Outcome)
    requires 1 <= n && Inv(RingWiring(n), sys) && Running(sys) && CanStep(sys) && RingNet(n, NetOf(sys))
    requires MoveOf(sys).Start? || MoveOf(sys).Resume?
    ensures GoesOn(v, s, n, sys, o)
  {
    var p, wr := Current(sys), RingWiring(n);
    o := CodeOutcome(v, s, n, p, NetOf(sys)[p]);
    StepMoves(wr, Intended, sys, o);
    RingBehaves(v, s, n, p, NetOf(sys)[p], o);
    FollowsOne(v, s, n, NetOf(sys), LabelsOf(wr, sys, o)[0]);
    assert LabelsOf(wr, sys, o) == [LabelsOf(wr, sys, o)[0]];
  }

  /** An input is taken and the code runs on what was received. */
  lemma TakerRunsNext(v: Ring.Variant, s: Ring.Settings, n: nat, sys: Sys, i: nat, c: nat) returns (o: Outcome)
    requires 1 <= n && Inv(RingWiring(n), sys) && Running(sys) && CanStep(sys) && RingNet(n, NetOf(sys))
    requires MoveOf(sys) == Take(i, c)
    ensures GoesOn(v, s, n, sys, o)
  {
    var p, wr, net := Current(sys), RingWiring(n), NetOf(sys);
    var any := Outcome(sys.procs[p].alt, [], false);
    TakeCommunicates(wr, sys, any, i, c);
    var l := LabelsOf(wr, sys, any)[0];
    CommIsNext(v, s, n, net, c, i, l.value);
    var net' := Do(wr, net, l);
    assert net'[p].Resuming?;
    o := CodeOutcome(v, s, n, p, net'[p]);
    RingBehaves(v, s, n, p, net'[p], o);
    TakeCommunicates(wr, sys, o, i, c);
    var ls := LabelsOf(wr, sys, o);
    assert ls == [l, ls[1]];
    FollowsTwo(v, s, n, net, l, ls[1]);
  }

  /** An iteration in which no code runs; any outcome will do. */
  lemma NoCodeNext(v: Ring.Variant, s: Ring.Settings, n: nat, sys: Sys) returns (o: Outcome)
    requires 1 <= n && Inv(RingWiring(n), sys) && Running(sys) && CanStep(sys) && RingNet(n, NetOf(sys))
    requires MoveOf(sys).Wait? || MoveOf(sys).Offer?
    ensures GoesOn(v, s, n, sys, o)
  {
    var p := Current(sys);
    o := Outcome(Alternation(RingGuards(n, p, true, false), 0, 0, false), [0], false);
    StepMoves(RingWiring(n), Intended, sys, o);
  }

  /** Whatever the scheduler does next, the ring's code can go on. */
  lemma RingGoesOn(v: Ring.Variant, s: Ring.Settings, n: nat, sys: Sys) returns (o: Outcome)
    requires 1 <= n && Inv(RingWiring(n), sys) && Running(sys) && RingNet(n, NetOf(sys))
    ensures GoesOn(v, s, n, sys, o)
  {
    InvCanStep(RingWiring(n), sys);
    match MoveOf(sys)
    case Start => o := CodeRunsNext(v, s, n, sys);
    case Resume => o := CodeRunsNext(v, s, n, sys);
    case Wait => o := NoCodeNext(v, s, n, sys);
    case Offer(_, _) => o := NoCodeNext(v, s, n, sys);
    case Take(i, c) => o := TakerRunsNext(v, s, n, sys, i, c);
    case Pass(_) => NoSkips(n, sys);
  }

  /** The ring's ALTs have no skips. */
  lemma NoSkips(n: nat, sys: Sys)
    requires 1 <= n && Inv(RingWiring(n), sys) && Running(sys) && CanStep(sys) && RingNet(n, NetOf(sys))
    ensures !MoveOf(sys).Pass?
  {
    var p := Current(sys);
    StepMoves(RingWiring(n), Intended, sys, Outcome(sys.procs[p].alt, [], false));
    assert NetOf(sys)[p] == NodeOf(sys.procs[p]);
  }

  /** A run that has not gone idle can be continued. */
  lemma RunContinues(v: Ring.Variant, s: Ring.Settings, n: nat, sys: Sys, os: seq<Outcome>) returns (o: Outcome)
    requires RingRun(v, s, n, sys, os) && Running(RunAll(RingWiring(n), sys, os))
    ensures RingRun(v, s, n, sys, os + [o])
  {
    var wr, end := RingWiring(n), RunAll(RingWiring(n), sys, os);
    var st, cs := RunIsRingRun(v, s, n, sys, os);
    InvRuns(wr, sys, os);
    o := RingGoesOn(v, s, n, end);
    RunGoesOn(wr, sys, os, o);
    LabelsGoOn(wr, sys, os, o);
    RunIsNetworkRun(wr, sys, os);
    FollowsConcat(v, s, n, NetOf(sys), LabelsOfRun(wr, sys, os), LabelsOf(wr, end, o));
  }

  /** A bound on the length of a run. */
  ghost function Budget(v: Ring.Variant, s: Ring.Settings, n: nat): int {
    2 * (n + 1) + 6 * RingLaws.Around(RingLaws.TokenCount(v, s) + Ring.Limit(v, s) + 2, n)
  }

  /** The run has gone idle with every process terminated and the right sum. */
  ghost predicate Completed(v: Ring.Variant, s: Ring.Settings, n: nat, sys: Sys, os: seq<Outcome>)
    requires RingLaws.ValidSettings(v, s)
  {
    RingRun(v, s, n, sys, os) && var end := RunAll(RingWiring(n), sys, os);
    && !Running(end) && (forall p :: 0 <= p <= n ==> end.procs[p].state == DONE)
    && |end.procs[0].vars| == 5 && end.procs[0].vars[2] == RingLaws.Goal(v, s, n)
  }

  lemma WithinBudget(v: Ring.Variant, s: Ring.Settings, n: nat, sys: Sys, os: seq<Outcome>)
    requires RingRun(v, s, n, sys, os) && RingLaws.ValidSettings(v, s) && RingLaws.TokenCount(v, s) <= n
    ensures |os| <= Budget(v, s, n)
  {
    RingOnScheduler(v, s, n, sys, os);
  }

  lemma IdleIsCompleted(v: Ring.Variant, s: Ring.Settings, n: nat, sys: Sys, os: seq<Outcome>)
    requires RingRun(v, s, n, sys, os) && RingLaws.ValidSettings(v, s) && RingLaws.TokenCount(v, s) <= n
    requires !Running(RunAll(RingWiring(n), sys, os))
    ensures Completed(v, s, n, sys, os)
  {
    RingOnScheduler(v, s, n, sys, os);
  }

  lemma LongerRun(v: Ring.Variant, s: Ring.Settings, n: nat, sys: Sys, os: seq<Outcome>) returns (o: Outcome)
    requires RingRun(v, s, n, sys, os) && RingLaws.ValidSettings(v, s) && RingLaws.TokenCount(v, s) <= n
    requires !Completed(v, s, n, sys, os)
    ensures RingRun(v, s, n, sys, os + [o]) && |os| < Budget(v, s, n)
  {
    if !Running(RunAll(RingWiring(n), sys, os)) {
      IdleIsCompleted(v, s, n, sys, os);
    }
    o := RunContinues(v, s, n, sys, os);
    WithinBudget(v, s, n, sys, os + [o]);
  }

  /** Every run of a ring of N processes with T <= N - 1 tokens is the beginning of
      one that goes idle, with every process terminated and the right sum. */
  lemma {:induction false} RunCompletes(v: Ring.Variant, s: Ring.Settings, n: nat, sys: Sys, os: seq<Outcome>) returns (more: seq<Outcome>)
    requires RingRun(v, s, n, sys, os) && RingLaws.ValidSettings(v, s) && RingLaws.TokenCount(v, s) <= n
    ensures Completed(v, s, n, sys, os + more)
    decreases Budget(v, s, n) - |os|
  {
    if Completed(v, s, n, sys, os) {
      more := [];
      assert os + more == os;
    } else {
      var o := LongerRun(v, s, n, sys, os);
      var rest := RunCompletes(v, s, n, sys, os + [o]);
      more := [o] + rest;
      assert os + more == os + [o] + rest;
    }
  }
}
