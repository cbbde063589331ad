/** The commstime program: Prefix, Delta, Succ and Consume around four channels. */
module CommsTime {
  import opened Types
  import opened AltChannels
  import opened Scheduler
  import opened SchedulerInv
  import opened Network
  import opened Refinement
  import opened SchedulerRuns
  import opened SchedulerText

  const PREFIX: Pid := 0
  const DELTA: Pid := 1
  const SUCC: Pid := 2
  const CONSUME: Pid := 3

  /** Channels a, b, c and d. */
  function Wires(): Wiring {
    Wiring([DELTA, SUCC, CONSUME, PREFIX], [PREFIX, DELTA, DELTA, SUCC])
  }

  /** The integer of a process and the active flags of its guards. */
  datatype Local = Local(x: int, active: seq<bool>)

  function Width(p: Pid): nat {
    if p == DELTA then 3 else if p == PREFIX || p == SUCC then 2 else 1
  }

  /** Guard 0 inputs; the others output. */
  function Guards(p: Pid, active: seq<bool>): seq<Guard>
    requires |active| == Width(p)
  {
    if p == PREFIX then [Guard(ChanIn(3, 0), active[0]), Guard(ChanOut(0, 0), active[1])]
    else if p == DELTA then
      [Guard(ChanIn(0, 0), active[0]), Guard(ChanOut(1, 0), active[1]), Guard(ChanOut(2, 0), active[2])]
    else if p == SUCC then [Guard(ChanIn(1, 0), active[0]), Guard(ChanOut(3, 0), active[1])]
    else [Guard(ChanIn(2, 0), active[0])]
  }

  // ---------- the processes' code ----------

  function Flip(active: seq<bool>): seq<bool>
    requires |active| == 2
  {
    [!active[0], !active[1]]
  }

  function Code(p: Pid, l: Local, initial: bool, selected: nat): (l': Local)
    requires |l.active| == Width(p)
    ensures |l'.active| == Width(p)
  {
    if p == PREFIX then l.(active := Flip(if initial then [true, false] else l.active))
    else if p == DELTA then
      if initial then l.(active := [true, false, false])
      else if selected == 0 then l.(active := l.active[0 := false][1 := true])
      else if selected == 1 then l.(active := l.active[1 := false][2 := true])
      else if selected == 2 then l.(active := l.active[2 := false][0 := true])
      else l
    else if p == SUCC then Local(l.x + 1, Flip(if initial then [false, true] else l.active))
    else if initial then l.(active := [true]) else l
  }

  // ---------- the program on the network ----------

  function Flags(p: Pid, g: seq<Guard>): seq<bool>
    requires |g| == Width(p)
  {
    seq(|g|, i requires 0 <= i < |g| => g[i].active)
  }

  predicate OneActive(active: seq<bool>) {
    (exists i :: 0 <= i < |active| && active[i]) && forall i, j :: 0 <= i < j < |active| ==> !(active[i] && active[j])
  }

  predicate Shaped(p: Pid, node: Node) {
    && |node.vars| == 1
    && match node
       case Offering(g, _) => |g| == Width(p) && g == Guards(p, Flags(p, g)) && OneActive(Flags(p, g))
       case Resuming(g, b, _) => |g| == Width(p) && g == Guards(p, Flags(p, g)) && OneActive(Flags(p, g)) && b < |g| && g[b].active
       case Finished(_) => false
       case Fresh(_) => true
  }

  /** The process once its code has been run. */
  function Settled(p: Pid, node: Node): (l: Local)
    requires Shaped(p, node)
    ensures |l.active| == Width(p)
  {
    match node
    case Fresh(vars) => Code(p, Local(vars[0], seq(Width(p), _ => false)), true, 0)
    case Resuming(g, b, vars) => Code(p, Local(vars[0], Flags(p, g)), false, b)
    case Offering(g, vars) => Local(vars[0], Flags(p, g))
    case Finished(vars) => Local(vars[0], seq(Width(p), _ => false))
  }

  predicate Follows(p: Pid, node: Node, o: Outcome)
    requires Shaped(p, node)
  {
    var l := Settled(p, node);
    !o.alt.pri && o.alt.index < |o.alt.guards| && o.vars == [l.x] && o.alt.guards == Guards(p, l.active) && !o.done
  }

  predicate CommsNet(net: Net) {
    |net| == 4 && forall p :: 0 <= p < 4 ==> Shaped(p, net[p])
  }

  predicate FollowsLabel(net: Net, l: Label)
    requires CommsNet(net)
  {
    match l
    case Init(p, o) => p < 4 && Follows(p, net[p], o)
    case Run(p, _, o) => p < 4 && Follows(p, net[p], o)
    case _ => true
  }

  ghost predicate FollowsAll(net: Net, ls: seq<Label>)
    requires |net| == 4
    decreases |ls|
  {
    ls != [] ==>
      && CommsNet(net) && CanDo(Wires(), net, ls[0]) && FollowsLabel(net, ls[0])
      && FollowsAll(Do(Wires(), net, ls[0]), ls[1..])
  }

  // ---------- the invariant ----------

  function Active(net: Net, p: Pid, i: nat): bool
    requires CommsNet(net) && p < 4 && i < Width(p)
  {
    Settled(p, net[p]).active[i]
  }

  function X(net: Net, p: Pid): int
    requires CommsNet(net) && p < 4
  {
    Settled(p, net[p]).x
  }

  /** What each process is once its code has been run. */
  function LocalsOf(net: Net): (ls: seq<Local>)
    requires CommsNet(net)
    ensures FourLocals(ls) && forall p :: 0 <= p < 4 ==> ls[p] == Settled(p, net[p])
  {
    seq(4, p requires 0 <= p < 4 => Settled(p, net[p]))
  }

  predicate FourLocals(ls: seq<Local>) {
    |ls| == 4 && forall p :: 0 <= p < 4 ==> |ls[p].active| == Width(p)
  }

  /** `next` is the next number for Consume; `k` counts the communications of the
      current round: 0 before a, 1 before b, 2 before c and d, 3 when only c is
      missing, and 4 when only d is. */
  predicate RoundOf(ls: seq<Local>, next: int, k: nat)
    requires FourLocals(ls)
  {
    var (prefix, delta, succ) := (ls[PREFIX], ls[DELTA], ls[SUCC]);
    && ls[CONSUME].active[0]
    && match k
       case 0 => prefix.active[1] && delta.active[0] && succ.active[0] && prefix.x == next
       case 1 => prefix.active[0] && delta.active[1] && succ.active[0] && delta.x == next
       case 2 => prefix.active[0] && delta.active[2] && succ.active[1] && delta.x == next && succ.x == next + 1
       case 3 => prefix.active[1] && delta.active[2] && succ.active[0] && delta.x == next && prefix.x == next + 1
       case 4 => prefix.active[0] && delta.active[0] && succ.active[1] && succ.x == next
       case _ => false
  }

  predicate Round(net: Net, next: int, k: nat) {
    CommsNet(net) && RoundOf(LocalsOf(net), next, k)
  }

  lemma SettledCode(p: Pid, node: Node, o: Outcome)
    requires p < 4 && Shaped(p, node) && Due(node) && Follows(p, node, o)
    ensures Shaped(p, AfterCode(o, o.done)) && Settled(p, AfterCode(o, o.done)) == Settled(p, node)
    ensures Behaved(Wires(), p, o.alt, o.vars)
  {
    var l := Settled(p, node);
    assert Flags(p, o.alt.guards) == l.active;
    assert OneActive(l.active) by {
      if p == CONSUME { assert l.active[0]; }
    }
  }

  lemma OutputOf(p: Pid, g: seq<Guard>)
    requires |g| == Width(p) && g == Guards(p, Flags(p, g))
    ensures OutIndex(g) == if |g| > 1 && g[1].active then 1 else if |g| > 2 && g[2].active then 2 else |g|
  {
  }

  lemma CodeKeepsRound(net: Net, p: Pid, o: Outcome, done: bool, next: int, k: nat)
    requires Round(net, next, k) && p < 4 && Due(net[p]) && Follows(p, net[p], o) && !done
    ensures Round(net[p := AfterCode(o, done)], next, k)
  {
    SettledCode(p, net[p], o);
    RoundBySettled(net, net[p := AfterCode(o, done)], next, k);
  }

  /** Whether code has been run or is due makes no difference. */
  lemma RoundBySettled(net: Net, net': Net, next: int, k: nat)
    requires Round(net, next, k) && CommsNet(net') && forall p :: 0 <= p < 4 ==> Settled(p, net'[p]) == Settled(p, net[p])
    ensures Round(net', next, k)
  {
  }

  /** The ends of a communication: its outputter's and inputter's active guards. */
  lemma CommEnds(net: Net, c: nat, i: nat, v: int)
    requires CommsNet(net) && CanDo(Wires(), net, Comm(c, i, v))
    ensures c < 4 && i == 0
    ensures var p, q, net' := Wires().outputter[c], Wires().inputter[c], Do(Wires(), net, Comm(c, i, v));
            var b := if c == 2 then 2 else 1;
            && b < Width(p) && Active(net, p, b) && Active(net, q, 0) && v == X(net, p)
            && net[p].Offering? && net[q].Offering?
            && net'[p] == Resuming(net[p].guards, b, net[p].vars) && net'[q] == Resuming(net[q].guards, 0, [v])
            && Shaped(p, net'[p]) && Shaped(q, net'[q])
            && (forall r :: 0 <= r < 4 && r != p && r != q ==> net'[r] == net[r])
  {
    var p, q := Wires().outputter[c], Wires().inputter[c];
    OutputOf(p, net[p].guards);
    OutputOf(q, net[q].guards);
    assert net[q].vars[0 := v] == [v];
  }

  function NextRound(k: nat, c: nat): nat {
    if k == 0 then 1 else if k == 1 then 2 else if k == 2 then (if c == 2 then 4 else 3) else 0
  }

  predicate InRound(k: nat, c: nat) {
    (c == 0 && k == 0) || (c == 1 && k == 1) || (c == 2 && k in {2, 3}) || (c == 3 && k in {2, 4})
  }

  /** What a communication of `v` on channel `c` makes of the processes. */
  predicate Communicated(ls: seq<Local>, ls': seq<Local>, c: nat, v: int)
    requires FourLocals(ls) && FourLocals(ls') && c < 4
  {
    var p, q := Wires().outputter[c], Wires().inputter[c];
    var b := if c == 2 then 2 else 1;
    && b < Width(p) && ls[p].active[b] && ls[q].active[0] && v == ls[p].x
    && OneActive(ls[p].active) && OneActive(ls[q].active)
    && ls'[p] == Code(p, ls[p], false, b) && ls'[q] == Code(q, ls[q].(x := v), false, 0)
    && (forall r :: 0 <= r < 4 && r != p && r != q ==> ls'[r] == ls[r])
  }

  /** A communication is one of the round, on c the next number crosses, and the round goes on. */
  lemma RoundAdvances(ls: seq<Local>, ls': seq<Local>, c: nat, v: int, next: int, k: nat)
    requires FourLocals(ls) && FourLocals(ls') && RoundOf(ls, next, k)
    requires c < 4 && Communicated(ls, ls', c, v)
    ensures InRound(k, c) && (c == 2 ==> v == next)
    ensures RoundOf(ls', if c == 2 then next + 1 else next, NextRound(k, c))
  {
  }

  /** A network whose ends of channel `c` have communicated and run their code is where the round goes on. */
  lemma CommAndCode(net: Net, net': Net, c: nat, v: int, next: int, k: nat)
    requires Round(net, next, k) && CommsNet(net') && c < 4
    requires Communicated(LocalsOf(net), LocalsOf(net'), c, v)
    ensures InRound(k, c) && Round(net', if c == 2 then next + 1 else next, NextRound(k, c)) && (c == 2 ==> v == next)
  {
    RoundAdvances(LocalsOf(net), LocalsOf(net'), c, v, next, k);
  }

  /** Only the communications of the round happen, and on c the next number crosses. */
  lemma CommKeepsRound(net: Net, c: nat, i: nat, v: int, next: int, k: nat)
    requires Round(net, next, k) && CanDo(Wires(), net, Comm(c, i, v))
    ensures InRound(k, c) && (c == 2 ==> v == next)
    ensures Round(Do(Wires(), net, Comm(c, i, v)), if c == 2 then next + 1 else next, NextRound(k, c))
  {
    CommSettles(net, c, i, v);
    CommAndCode(net, Do(Wires(), net, Comm(c, i, v)), c, v, next, k);
  }

  /** A communication runs the code of both its ends. */
  lemma CommSettles(net: Net, c: nat, i: nat, v: int)
    requires CommsNet(net) && CanDo(Wires(), net, Comm(c, i, v))
    ensures c < 4 && i == 0
    ensures var net' := Do(Wires(), net, Comm(c, i, v));
            CommsNet(net') && Communicated(LocalsOf(net), LocalsOf(net'), c, v)
  {
    CommEnds(net, c, i, v);
  }

  /** Code run on a completed branch leaves one guard active. */
  lemma CodeKeepsOneActive(p: Pid, l: Local, b: nat)
    requires p < 4 && |l.active| == Width(p) && OneActive(l.active) && b < Width(p) && l.active[b]
    ensures OneActive(Code(p, l, false, b).active)
  {
    var a := Code(p, l, false, b).active;
    var next := if p == CONSUME then 0 else if p == DELTA then (if b == 2 then 0 else b + 1) else 1 - b;
    assert a[next];
  }

  lemma LabelKeepsRound(net: Net, l: Label, next: int, k: nat)
    requires Round(net, next, k) && CanDo(Wires(), net, l) && FollowsLabel(net, l)
    ensures !l.Choose?
    ensures l.Comm? ==> (l.chan == 2 ==> l.value == next)
                        && Round(Do(Wires(), net, l), if l.chan == 2 then next + 1 else next, NextRound(k, l.chan))
    ensures !l.Comm? ==> Round(Do(Wires(), net, l), next, k)
  {
    match l
    case Comm(c, i, v) => CommKeepsRound(net, c, i, v, next, k);
    case Choose(_, _) =>
    case Init(p, o) => CodeKeepsRound(net, p, o, false, next, k);
    case Run(p, _, o) => CodeKeepsRound(net, p, o, o.done, next, k);
  }

  // ---------- whole runs ----------

  /** Communications of the current round, counting the one on c for four. */
  function Offset(k: nat): int {
    if k == 4 then -1 else k
  }

  lemma OneLabel(net: Net, l: Label, next: int, k: nat) returns (k': nat)
    requires Round(net, next, k) && CanDo(Wires(), net, l) && FollowsLabel(net, l)
    ensures Round(Do(Wires(), net, l), next + |CrossedBy(l, 2)|, k') && !l.Choose?
    ensures CrossedBy(l, 2) == [] || CrossedBy(l, 2) == [next]
    ensures Comms([l]) == 4 * |CrossedBy(l, 2)| + Offset(k') - Offset(k)
  {
    LabelKeepsRound(net, l, next, k);
    assert [l][1..] == [];
    k' := k;
    if l.Comm? {
      CommKeepsRound(net, l.chan, l.branch, l.value, next, k);
      k' := NextRound(k, l.chan);
    }
  }

  ghost predicate Consecutive(q: seq<int>, next: int) {
    forall j :: 0 <= j < |q| ==> q[j] == next + j
  }

  lemma ConsecutiveConcat(a: seq<int>, b: seq<int>, next: int)
    requires (a == [] || a == [next]) && Consecutive(b, next + |a|)
    ensures Consecutive(a + b, next)
  {
  }

  /** The numbers that cross to Consume are consecutive, one in every four communications. */
  lemma {:induction false} RunKeepsRound(net: Net, ls: seq<Label>, next: int, k: nat) returns (k': nat)
    requires Round(net, next, k) && ValidWiring(Wires(), 4) && CanDoAll(Wires(), net, ls) && FollowsAll(net, ls)
    ensures Round(DoAll(Wires(), net, ls), next + |Crossed(ls, 2)|, k')
    ensures Consecutive(Crossed(ls, 2), next)
    ensures Comms(ls) == 4 * |Crossed(ls, 2)| + Offset(k') - Offset(k)
    ensures forall l :: l in ls ==> !l.Choose?
    decreases |ls|
  {
    if ls == [] {
      k' := k;
    } else {
      var a := CrossedBy(ls[0], 2);
      var k1 := OneLabel(net, ls[0], next, k);
      k' := RunKeepsRound(Do(Wires(), net, ls[0]), ls[1..], next + |a|, k1);
      ConsecutiveConcat(a, Crossed(ls[1..], 2), next);
      assert [ls[0]][1..] == [];
    }
  }

  /** The channel on which the round goes on. */
  function NextChannel(k: nat): nat {
    if k == 0 then 0 else if k == 1 then 1 else if k == 4 then 3 else 2
  }

  /** Two processes that offer the ends of channel `c` can communicate. */
  lemma OfferingCanDo(net: Net, c: nat)
    requires CommsNet(net) && c < 4
    requires var p, q := Wires().outputter[c], Wires().inputter[c];
             && net[p].Offering? && net[q].Offering? && Active(net, p, if c == 2 then 2 else 1) && Active(net, q, 0)
    ensures ValidWiring(Wires(), 4) && CanDo(Wires(), net, Comm(c, 0, X(net, Wires().outputter[c])))
  {
    var p, q := Wires().outputter[c], Wires().inputter[c];
    assert OneActive(Flags(p, net[p].guards)) && OneActive(Flags(q, net[q].guards));
    OutputOf(p, net[p].guards);
    OutputOf(q, net[q].guards);
  }

  /** The network never deadlocks. */
  lemma NeverStuck(net: Net, next: int, k: nat, o: Outcome)
    requires Round(net, next, k) && ValidWiring(Wires(), 4)
    ensures !Stuck(Wires(), net)
  {
    if p :| 0 <= p < 4 && net[p].Fresh? {
      assert CanDo(Wires(), net, Init(p, o));
    } else if p :| 0 <= p < 4 && net[p].Resuming? {
      assert CanDo(Wires(), net, Label.Run(p, net[p], o));
    } else {
      var c := NextChannel(k);
      OfferingCanDo(net, c);
      assert CanDo(Wires(), net, Comm(c, 0, X(net, Wires().outputter[c])));
    }
  }

  /** `os` are the outcomes of a run of commstime on the scheduler. */
  ghost predicate CommsRun(sys: Sys, os: seq<Outcome>) {
    && Initial(Wires(), sys) && CommsNet(NetOf(sys)) && Inv(Wires(), sys) && GoodRun(Wires(), sys, os)
    && FollowsAll(NetOf(sys), LabelsOfRun(Wires(), sys, os))
    && forall o :: o in os ==> LoneGuard(o.alt.guards)
  }

  /** A run on the scheduler keeps the rounds of the network. */
  lemma SchedulerKeepsRound(sys: Sys, os: seq<Outcome>) returns (k: nat)
    requires CommsRun(sys, os)
    ensures var ls, net := LabelsOfRun(Wires(), sys, os), NetOf(RunAll(Wires(), sys, os));
            && Round(net, sys.procs[PREFIX].vars[0] + |Crossed(ls, 2)|, k)
            && Consecutive(Crossed(ls, 2), sys.procs[PREFIX].vars[0])
            && Comms(ls) == 4 * |Crossed(ls, 2)| + Offset(k) && forall l :: l in ls ==> !l.Choose?
  {
    var net, x0 := NetOf(sys), sys.procs[PREFIX].vars[0];
    assert forall p :: 0 <= p < 4 ==> net[p].Fresh?;
    assert Round(net, x0, 0);
    RunIsNetworkRun(Wires(), sys, os);
    k := RunKeepsRound(net, LabelsOfRun(Wires(), sys, os), x0, 0);
  }

  /** The scheduler never goes idle. */
  lemma NeverIdle(sys: Sys, os: seq<Outcome>)
    requires CommsRun(sys, os)
    ensures Running(RunAll(Wires(), sys, os))
  {
    var sys' := RunAll(Wires(), sys, os);
    InvRuns(Wires(), sys, os);
    var k := SchedulerKeepsRound(sys, os);
    if !Running(sys') {
      IdleIsDeadlock(Wires(), sys');
      NeverStuck(NetOf(sys'), sys.procs[PREFIX].vars[0] + |Crossed(LabelsOfRun(Wires(), sys, os), 2)|, k,
                 Outcome(sys.procs[0].alt, [], false));
    }
  }

  /** On every run of commstime on the scheduler, Consume receives x0, x0 + 1,
      x0 + 2 and so on, x0 being the starting value of Prefix; the scheduler never
      goes idle, and Consume receives a number at least every 24 iterations. The
      text of readyProcessIfNecessary as written gives the same runs. */
  lemma CommsTimeOnScheduler(sys: Sys, os: seq<Outcome>)
    requires CommsRun(sys, os)
    ensures var seen := Seen(Wires(), LabelsOfRun(Wires(), sys, os), 2);
            && Consecutive(seen, sys.procs[PREFIX].vars[0])
            && |os| <= 24 * |seen| + 26
    ensures Running(RunAll(Wires(), sys, os)) && RunText(Written, sys, os) == RunAll(Wires(), sys, os)
  {
    LoneGuardRuns(Wires(), sys, os);
    NeverIdle(sys, os);
    var _ := SchedulerKeepsRound(sys, os);
    ReceivesOften(sys, os);
    SeenOnce(Wires(), sys, os, 2);
  }

  /** A number crosses to Consume at least every 24 iterations. */
  lemma ReceivesOften(sys: Sys, os: seq<Outcome>)
    requires CommsRun(sys, os)
    ensures |os| <= 24 * |Crossed(LabelsOfRun(Wires(), sys, os), 2)| + 26
  {
    var _ := SchedulerKeepsRound(sys, os);
    RunIsNetworkRun(Wires(), sys, os);
    CodeBudget(Wires(), NetOf(sys), LabelsOfRun(Wires(), sys, os));
    DueCountBound(NetOf(sys));
    IterationsBounded(Wires(), sys, os);
  }
}
