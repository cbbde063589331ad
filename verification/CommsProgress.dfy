/** Runs of commstime on the scheduler can always be continued, so Consume receives
    as many numbers as one cares to wait for. */
module CommsProgress {
  import opened Types
  import opened Sequences
  import opened Scheduler
  import opened SchedulerInv
  import opened SchedulerMoves
  import opened Network
  import opened Refinement
  import opened SchedulerRuns
  import opened SchedulerText
  import opened CommsTime

  /** What the code of a process makes of `node`. */
  function CodeOutcome(p: Pid, node: Node): (o: Outcome)
    requires p < 4 && Shaped(p, node)
    ensures Follows(p, node, o)
  {
    var l := Settled(p, node);
    Outcome(Alternation(Guards(p, l.active), 0, 0, false), [l.x], false)
  }

  lemma OneGuardActive(p: Pid, node: Node, o: Outcome)
    requires p < 4 && Shaped(p, node) && Due(node) && Follows(p, node, o)
    ensures LoneGuard(o.alt.guards)
  {
    SettledCode(p, node, o);
    assert Shaped(p, AfterCode(o, o.done));
    assert forall i :: 0 <= i < |o.alt.guards| ==> o.alt.guards[i].active == Flags(p, o.alt.guards)[i];
  }

  lemma {:induction false} FollowsConcat(net: Net, a: seq<Label>, b: seq<Label>)
    requires |net| == 4 && ValidWiring(Wires(), 4) && CanDoAll(Wires(), net, a)
    requires FollowsAll(net, a) && FollowsAll(DoAll(Wires(), net, a), b)
    ensures FollowsAll(net, a + b)
    decreases |a|
  {
    if a == [] {
      assert a + b == b;
    } else {
      FollowsConcat(Do(Wires(), net, a[0]), a[1..], b);
      FollowsFirst(net, a[0], a[1..] + b);
      ConcatFirst(a, b);
    }
  }

  lemma FollowsFirst(net: Net, l: Label, ls: seq<Label>)
    requires ValidWiring(Wires(), 4) && CommsNet(net) && CanDo(Wires(), net, l) && FollowsLabel(net, l)
    requires FollowsAll(Do(Wires(), net, l), ls)
    ensures FollowsAll(net, [l] + ls)
  {
    assert ([l] + ls)[1..] == ls;
  }

  lemma FollowsTwo(net: Net, l: Label, l': Label)
    requires ValidWiring(Wires(), 4) && CommsNet(net) && CanDo(Wires(), net, l) && FollowsLabel(net, l)
    requires var net' := Do(Wires(), net, l); CommsNet(net') && CanDo(Wires(), net', l') && FollowsLabel(net', l')
    ensures FollowsAll(net, [l, l'])
  {
    FollowsFirst(Do(Wires(), net, l), l', []);
    FollowsFirst(net, l, [l'] + []);
    assert [l, l'] == [l] + ([l'] + []);
  }

  /** `o` is a well-behaved outcome for the next iteration that the program's code prescribes. */
  ghost predicate GoesOn(sys: Sys, o: Outcome)
    requires Inv(Wires(), sys) && Running(sys) && |sys.procs| == 4
  {
    && Behaved(Wires(), Current(sys), o.alt, o.vars) && LoneGuard(o.alt.guards)
    && FollowsAll(NetOf(sys), LabelsOf(Wires(), sys, o))
  }

  /** A first run, or the run of a process whose output was taken. */
  lemma CodeRunsNext(sys: Sys) returns (o: Outcome)
    requires Inv(Wires(), sys) && Running(sys) && CanStep(sys) && CommsNet(NetOf(sys))
    requires MoveOf(sys).Start? || MoveOf(sys).Resume?
    ensures GoesOn(sys, o)
  {
    var p := Current(sys);
    o := CodeOutcome(p, NetOf(sys)[p]);
    StepMoves(Wires(), Intended, sys, o);
    SettledCode(p, NetOf(sys)[p], o);
    OneGuardActive(p, NetOf(sys)[p], o);
    FollowsFirst(NetOf(sys), LabelsOf(Wires(), sys, o)[0], []);
    assert LabelsOf(Wires(), sys, o) == [LabelsOf(Wires(), sys, o)[0]] + [];
  }

  /** An input is taken and the code runs on what was received. */
  lemma TakerRunsNext(sys: Sys, i: nat, c: nat) returns (o: Outcome)
    requires Inv(Wires(), sys) && Running(sys) && CanStep(sys) && CommsNet(NetOf(sys)) && MoveOf(sys) == Take(i, c)
    ensures GoesOn(sys, o)
  {
    var p, net := Current(sys), NetOf(sys);
    var any := Outcome(sys.procs[p].alt, [], false);
    TakeCommunicates(Wires(), sys, any, i, c);
    var l := LabelsOf(Wires(), sys, any)[0];
    CommSettles(net, c, i, l.value);
    var net' := Do(Wires(), net, l);
    assert net'[p].Resuming?;
    o := CodeOutcome(p, net'[p]);
    SettledCode(p, net'[p], o);
    OneGuardActive(p, net'[p], o);
    TakeCommunicates(Wires(), sys, o, i, c);
    var ls := LabelsOf(Wires(), sys, o);
    FollowsTwo(net, l, ls[1]);
    assert ls == [l, ls[1]];
  }

  lemma AnyOutcome(p: Pid) returns (o: Outcome)
    requires p < 4
    ensures Behaved(Wires(), p, o.alt, o.vars) && LoneGuard(o.alt.guards)
  {
    o := Outcome(Alternation(Guards(p, seq(Width(p), _ => false)), 0, 0, false), [0], false);
  }

  /** An iteration in which no code runs; any outcome will do. */
  lemma NoCodeNext(sys: Sys) returns (o: Outcome)
    requires Inv(Wires(), sys) && Running(sys) && CanStep(sys) && CommsNet(NetOf(sys))
    requires MoveOf(sys).Wait? || MoveOf(sys).Offer?
    ensures GoesOn(sys, o)
  {
    o := AnyOutcome(Current(sys));
    StepMoves(Wires(), Intended, sys, o);
    assert LabelsOf(Wires(), sys, o) == [];
  }

  /** The program's ALTs have no skips. */
  lemma NoSkips(sys: Sys)
    requires Inv(Wires(), sys) && Running(sys) && CanStep(sys) && CommsNet(NetOf(sys))
    ensures !MoveOf(sys).Pass?
  {
    var p := Current(sys);
    StepMoves(Wires(), Intended, sys, Outcome(sys.procs[p].alt, [], false));
    assert NetOf(sys)[p] == NodeOf(sys.procs[p]);
  }

  /** Whatever the scheduler does next, the program's code can go on. */
  lemma ProgramGoesOn(sys: Sys) returns (o: Outcome)
    requires Inv(Wires(), sys) && Running(sys) && CommsNet(NetOf(sys))
    ensures GoesOn(sys, o)
  {
    InvCanStep(Wires(), sys);
    match MoveOf(sys)
    case Start => o := CodeRunsNext(sys);
    case Resume => o := CodeRunsNext(sys);
    case Wait => o := NoCodeNext(sys);
    case Offer(_, _) => o := NoCodeNext(sys);
    case Take(i, c) => o := TakerRunsNext(sys, i, c);
    case Pass(_) => NoSkips(sys);
  }

  /** Every run can be continued. */
  lemma RunContinues(sys: Sys, os: seq<Outcome>) returns (o: Outcome)
    requires CommsRun(sys, os)
    ensures CommsRun(sys, os + [o])
  {
    var end := RunAll(Wires(), sys, os);
    NeverIdle(sys, os);
    var _ := SchedulerKeepsRound(sys, os);
    InvRuns(Wires(), sys, os);
    o := ProgramGoesOn(end);
    RunGoesOn(Wires(), sys, os, o);
    LabelsGoOn(Wires(), sys, os, o);
    RunIsNetworkRun(Wires(), sys, os);
    FollowsConcat(NetOf(sys), LabelsOfRun(Wires(), sys, os), LabelsOf(Wires(), end, o));
  }

  lemma {:induction false} RunLasts(sys: Sys, os: seq<Outcome>, m: nat) returns (more: seq<Outcome>)
    requires CommsRun(sys, os)
    ensures |more| == m && CommsRun(sys, os + more)
    decreases m
  {
    if m == 0 {
      more := [];
      assert os + more == os;
    } else {
      var o := RunContinues(sys, os);
      var rest := RunLasts(sys, os + [o], m - 1);
      more := [o] + rest;
      assert os + more == os + [o] + rest;
    }
  }

  /** Every run is the beginning of one in which Consume has received `m` numbers or more. */
  lemma ConsumeReceives(sys: Sys, os: seq<Outcome>, m: nat) returns (more: seq<Outcome>)
    requires CommsRun(sys, os)
    ensures CommsRun(sys, os + more)
    ensures |Seen(Wires(), LabelsOfRun(Wires(), sys, os + more), 2)| >= m
  {
    more := RunLasts(sys, os, 24 * m + 26);
    CommsTimeOnScheduler(sys, os + more);
  }
}
