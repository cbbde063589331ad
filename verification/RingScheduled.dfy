/** The token rings run by the scheduler: every run ends, with the right sum. */
module RingScheduled {
  import opened Types
  import opened Scheduler
  import opened SchedulerInv
  import opened Network
  import opened Refinement
  import opened SchedulerRuns
  import opened SchedulerText
  import opened RingNetwork
  import Ring
  import RingLaws

  /** Every piece of code that runs does what the ring's code does. */
  ghost predicate FollowsAll(v: Ring.Variant, s: Ring.Settings, n: nat, net: Net, ls: seq<Label>)
    requires |net| == n + 1 && ValidWiring(RingWiring(n), n + 1)
    decreases |ls|
  {
    ls != [] ==>
      && RingNet(n, net) && CanDo(RingWiring(n), net, ls[0]) && FollowsLabel(v, s, n, net, ls[0])
      && FollowsAll(v, s, n, Do(RingWiring(n), net, ls[0]), ls[1..])
  }

  /** What the ring's code leaves is well behaved and has one guard active. */
  lemma RingBehaves(v: Ring.Variant, s: Ring.Settings, n: nat, p: Pid, node: Node, o: Outcome)
    requires 1 <= n && p <= n && Shaped(n, p, node) && Due(node) && Follows(v, s, n, p, node, o)
    ensures Behaved(RingWiring(n), p, o.alt, o.vars) && LoneGuard(o.alt.guards)
  {
    if p == 0 {
      RootCode(v, s, n, node, o);
    } else {
      ElementCode(n, p, node, o, v, s);
    }
  }

  /** A run of the network is a run of the ring over the channels it uses. */
  lemma {:induction false} NetworkRunIsRingRun(v: Ring.Variant, s: Ring.Settings, n: nat, net: Net, ls: seq<Label>)
    returns (cs: seq<nat>)
    requires ValidWiring(RingWiring(n), n + 1) && RingNet(n, net) && CanDoAll(RingWiring(n), net, ls)
    requires FollowsAll(v, s, n, net, ls)
    ensures RingNet(n, DoAll(RingWiring(n), net, ls)) && (forall l :: l in ls ==> !l.Choose?)
    ensures |cs| == Comms(ls) && RingLaws.IsRun(v, s, RingOf(v, s, n, net), cs)
    ensures RingLaws.After(v, s, RingOf(v, s, n, net), cs) == RingOf(v, s, n, DoAll(RingWiring(n), net, ls))
    decreases |ls|
  {
    if ls == [] {
      cs := [];
    } else {
      LabelIsRingStep(v, s, n, net, ls[0]);
      var net' := Do(RingWiring(n), net, ls[0]);
      var cs' := NetworkRunIsRingRun(v, s, n, net', ls[1..]);
      if ls[0].Comm? {
        cs := [ls[0].chan] + cs';
        assert cs[1..] == cs';
      } else {
        cs := cs';
      }
    }
  }

  /** A channel of the ring that can communicate can do so in the network, once no code is due. */
  lemma EnabledCanDo(v: Ring.Variant, s: Ring.Settings, n: nat, net: Net, c: nat)
    requires ValidWiring(RingWiring(n), n + 1) && RingNet(n, net)
    requires forall p :: 0 <= p < |net| ==> !Due(net[p])
    requires c <= n && Ring.Enabled(RingOf(v, s, n, net), c)
    ensures |net[c].vars| > 0 && CanDo(RingWiring(n), net, Comm(c, 0, net[c].vars[0]))
  {
    var p, q := c, if c == n then 0 else c + 1;
    RingOutIndex(n, p, net[p].guards[0].active, net[p].guards[1].active);
    RingOutIndex(n, q, net[q].guards[0].active, net[q].guards[1].active);
  }

  lemma EnabledCanDoAll(v: Ring.Variant, s: Ring.Settings, n: nat, net: Net)
    requires ValidWiring(RingWiring(n), n + 1) && RingNet(n, net)
    requires forall p :: 0 <= p < |net| ==> !Due(net[p])
    ensures RingLaws.CanMove(RingOf(v, s, n, net)) ==> exists l :: CanDo(RingWiring(n), net, l)
  {
    var st := RingOf(v, s, n, net);
    if RingLaws.CanMove(st) {
      var c :| 0 <= c <= |st.elems| && Ring.Enabled(st, c);
      EnabledCanDo(v, s, n, net, c);
    }
  }

  lemma MoveInNetwork(v: Ring.Variant, s: Ring.Settings, n: nat, net: Net)
    requires ValidWiring(RingWiring(n), n + 1) && RingNet(n, net) && Stuck(RingWiring(n), net)
    requires forall p :: 0 <= p < |net| ==> !Due(net[p])
    ensures !RingLaws.CanMove(RingOf(v, s, n, net))
  {
    EnabledCanDoAll(v, s, n, net);
  }

  lemma StartsRing(v: Ring.Variant, s: Ring.Settings, n: nat, net: Net)
    requires RingNet(n, net) && forall p :: 0 <= p < |net| ==> net[p].Fresh? && (p == 0 ==> net[p].vars[4] == 0)
    ensures Ring.Starts(v, s, RingOf(v, s, n, net))
  {
  }

  /** The ring's program has been started on the scheduler: its processes are queued in any order. */
  ghost predicate Started(n: nat, sys: Sys) {
    && 1 <= n && Initial(RingWiring(n), sys) && RingNet(n, NetOf(sys)) && sys.procs[0].vars[4] == 0
  }

  /** `os` are the outcomes of a run of the ring's program on the scheduler. */
  ghost predicate RingRun(v: Ring.Variant, s: Ring.Settings, n: nat, sys: Sys, os: seq<Outcome>) {
    && Started(n, sys) && Inv(RingWiring(n), sys) && GoodRun(RingWiring(n), sys, os)
    && FollowsAll(v, s, n, NetOf(sys), LabelsOfRun(RingWiring(n), sys, os))
    && forall o :: o in os ==> LoneGuard(o.alt.guards)
  }

  /** A run on the scheduler is a run of the ring. */
  lemma RunIsRingRun(v: Ring.Variant, s: Ring.Settings, n: nat, sys: Sys, os: seq<Outcome>) returns (st: Ring.State, cs: seq<nat>)
    requires RingRun(v, s, n, sys, os)
    ensures |st.elems| == n && Ring.Starts(v, s, st) && RingLaws.IsRun(v, s, st, cs)
    ensures var net' := NetOf(RunAll(RingWiring(n), sys, os));
            RingNet(n, net') && RingLaws.After(v, s, st, cs) == RingOf(v, s, n, net')
    ensures |os| <= 2 * (n + 1) + 6 * |cs|
  {
    var wr, net, ls := RingWiring(n), NetOf(sys), LabelsOfRun(RingWiring(n), sys, os);
    RunIsNetworkRun(wr, sys, os);
    st := RingOf(v, s, n, net);
    cs := NetworkRunIsRingRun(v, s, n, net, ls);
    StartsRing(v, s, n, net);
    CodeBudget(wr, net, ls);
    DueCountBound(net);
    IterationsBounded(wr, sys, os);
  }

  /** When the scheduler goes idle on a ring with T <= N - 1 tokens, all processes have terminated. */
  lemma RingEnds(v: Ring.Variant, s: Ring.Settings, n: nat, sys: Sys, os: seq<Outcome>, st: Ring.State, cs: seq<nat>)
    requires RingRun(v, s, n, sys, os) && RingLaws.ValidSettings(v, s) && RingLaws.TokenCount(v, s) <= n
    requires |st.elems| == n && Ring.Starts(v, s, st) && RingLaws.IsRun(v, s, st, cs)
    requires var net' := NetOf(RunAll(RingWiring(n), sys, os)); RingNet(n, net') && RingLaws.After(v, s, st, cs) == RingOf(v, s, n, net')
    requires !Running(RunAll(RingWiring(n), sys, os))
    ensures var sys' := RunAll(RingWiring(n), sys, os);
            && (forall p :: 0 <= p <= n ==> sys'.procs[p].state == DONE)
            && |sys'.procs[0].vars| == 5 && sys'.procs[0].vars[2] == RingLaws.Goal(v, s, n)
  {
    var sys' := RunAll(RingWiring(n), sys, os);
    RingLaws.RingResult(v, s, st, cs);
    InvRuns(RingWiring(n), sys, os);
    IdleIsDeadlock(RingWiring(n), sys');
    MoveInNetwork(v, s, n, NetOf(sys'));
    AllFinished(v, s, n, sys');
  }

  /** Every run of a ring of N processes with T <= N - 1 tokens on the scheduler is
      finite; when the scheduler goes idle every process has terminated and the
      root has printed the sum of the tokens. The text of readyProcessIfNecessary
      as written gives the same runs. */
  lemma RingOnScheduler(v: Ring.Variant, s: Ring.Settings, n: nat, sys: Sys, os: seq<Outcome>)
    requires RingRun(v, s, n, sys, os) && RingLaws.ValidSettings(v, s) && RingLaws.TokenCount(v, s) <= n
    ensures var circuits := RingLaws.TokenCount(v, s) + Ring.Limit(v, s) + 2;
            |os| <= 2 * (n + 1) + 6 * RingLaws.Around(circuits, n)
    ensures var sys' := RunAll(RingWiring(n), sys, os);
            && RunText(Written, sys, os) == sys'
            && (!Running(sys') ==>
                  && (forall p :: 0 <= p <= n ==> sys'.procs[p].state == DONE)
                  && |sys'.procs[0].vars| == 5 && sys'.procs[0].vars[2] == RingLaws.Goal(v, s, n))
  {
    var st, cs := RunIsRingRun(v, s, n, sys, os);
    RingLaws.RingResult(v, s, st, cs);
    LoneGuardRuns(RingWiring(n), sys, os);
    if !Running(RunAll(RingWiring(n), sys, os)) {
      RingEnds(v, s, n, sys, os, st, cs);
    }
  }

  /** With T > N - 1 tokens every run is finite too, but the root is still injecting when the scheduler goes idle. */
  lemma OverfullOnScheduler(v: Ring.Variant, s: Ring.Settings, n: nat, sys: Sys, os: seq<Outcome>)
    requires RingRun(v, s, n, sys, os) && RingLaws.ValidSettings(v, s) && RingLaws.TokenCount(v, s) > n
    ensures var circuits := RingLaws.TokenCount(v, s) + Ring.Limit(v, s) + 2;
            |os| <= 2 * (n + 1) + 6 * RingLaws.Around(circuits, n)
    ensures RunAll(RingWiring(n), sys, os).procs[0].state != DONE
  {
    var sys' := RunAll(RingWiring(n), sys, os);
    var st, cs := RunIsRingRun(v, s, n, sys, os);
    RingLaws.StartInv(v, s, st);
    RingLaws.RunInv(v, s, st, cs);
    RingLaws.RingOverfull(v, s, st, cs);
    assert !RingLaws.After(v, s, st, cs).root.done;
    assert NetOf(sys')[0] == NodeOf(sys'.procs[0]);
  }

  lemma AllFinished(v: Ring.Variant, s: Ring.Settings, n: nat, sys: Sys)
    requires RingNet(n, NetOf(sys)) && forall p :: 0 <= p <= n ==> sys.procs[p].state in {WAITING, DONE}
    requires var st := RingOf(v, s, n, NetOf(sys)); st.root.done && forall k :: 0 <= k < n ==> st.elems[k].done
    ensures forall p :: 0 <= p <= n ==> sys.procs[p].state == DONE
    ensures |sys.procs[0].vars| == 5 && sys.procs[0].vars[2] == RingOf(v, s, n, NetOf(sys)).root.sum
  {
    var net := NetOf(sys);
    forall p | 0 <= p <= n ensures sys.procs[p].state == DONE {
      assert net[p] == NodeOf(sys.procs[p]);
      if p > 0 {
        assert RingOf(v, s, n, net).elems[p - 1] == SettledElement(net[p]);
      }
    }
  }
}
