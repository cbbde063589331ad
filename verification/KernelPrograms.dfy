/** The example programs on the scheduler's own records, as its text is written. */
module KernelPrograms {
  import opened Types
  import opened ReadyQueues
  import opened Kernel
  import opened KernelRuns
  import opened KernelStart
  import opened SchedulerInv
  import Scheduler
  import SchedulerRuns
  import CommsTime
  import Network
  import Refinement
  import Ring
  import RingLaws
  import RingNetwork
  import RingProgress
  import RingScheduled

  /** Starts a token ring: its empty run is the beginning of all its runs. */
  method StartRing(ghost v: Ring.Variant, ghost s: Ring.Settings, n: nat, vars: seq<seq<int>>, level: nat) returns (k: Kernel)
    requires 1 <= n && |vars| == n + 1 && 1 <= level < LEVELS
    requires |vars[0]| == 5 && vars[0][4] == 0 && forall p :: 1 <= p <= n ==> |vars[p]| == 1
    ensures k.Valid() && RingScheduled.RingRun(v, s, n, k.View(null), [])
  {
    k := StartProgram(vars, RingNetwork.RingWiring(n), n + 1, level);
    QueuedIsRing(v, s, n, k.View(null), vars);
  }

  lemma QueuedIsRing(v: Ring.Variant, s: Ring.Settings, n: nat, sys: Scheduler.Sys, vars: seq<seq<int>>)
    requires 1 <= n && |vars| == n + 1 && Queued(sys, vars, n + 1, n + 1) && Initial(RingNetwork.RingWiring(n), sys)
    requires |vars[0]| == 5 && vars[0][4] == 0 && forall p :: 1 <= p <= n ==> |vars[p]| == 1
    ensures RingScheduled.RingRun(v, s, n, sys, [])
  {
    InvAtStart(RingNetwork.RingWiring(n), sys);
    assert RingNetwork.RingNet(n, Refinement.NetOf(sys));
  }

  method StartCommsTime(vars: seq<seq<int>>, level: nat) returns (k: Kernel)
    requires |vars| == 4 && (forall p :: 0 <= p < 4 ==> |vars[p]| == 1) && 1 <= level < LEVELS
    ensures k.Valid() && CommsTime.CommsRun(k.View(null), []) && k.View(null).procs[CommsTime.PREFIX].vars == vars[0]
  {
    k := StartProgram(vars, CommsTime.Wires(), 4, level);
    ghost var sys := k.View(null);
    InvAtStart(CommsTime.Wires(), sys);
    assert CommsTime.CommsNet(Refinement.NetOf(sys));
  }

  /** A token ring with T <= N - 1 tokens: when the loop finds nothing more to run,
      every process has terminated and the root has the sum of the tokens; until
      then the run goes on, with outcome `next`. */
  method RunRing(k: Kernel, v: Ring.Variant, s: Ring.Settings, ghost n: nat, os: seq<Outcome>)
    returns (proc: Process?, ghost next: Outcome)
    requires k.Valid() && RingScheduled.RingRun(v, s, n, k.View(null), os)
    requires RingLaws.ValidSettings(v, s) && RingLaws.TokenCount(v, s) <= n
    modifies k.alts, k.alts.chans, k.alts.timers, k.alts.timers.pool`next, k.alts.procs, k.queues, k.queues.head, k.queues.tail
    ensures k.Valid() && |k.alts.procs| == n + 1
    ensures proc == null && k.queues.q[k.level] == [] ==>
              && (forall p :: 0 <= p <= n ==> k.alts.procs[p].state == DONE)
              && |k.alts.procs[0].vars| == 5 && k.alts.procs[0].vars[2] == RingLaws.Goal(v, s, n)
    ensures proc != null || k.queues.q[k.level] != [] ==> RingScheduled.RingRun(v, s, n, old(k.View(null)), os + [next])
  {
    ghost var sys, wr := k.View(null), RingNetwork.RingWiring(n);
    LoneGuardsNever(wr, sys, os);
    RingScheduled.RingOnScheduler(v, s, n, sys, os);
    next := Scheduler.Outcome(Alternation([], 0, 0, false), [], false);
    if Scheduler.Running(SchedulerRuns.RunAll(wr, sys, os)) {
      next := RingProgress.RunContinues(v, s, n, sys, os);
    }
    proc := RunProgram(k, wr, os);
    assert forall p :: 0 <= p <= n ==> k.View(proc).procs[p] == ProcOf(k.alts.procs[p]);
  }

  /** commstime: the loop always has something to run, and Consume has received
      consecutive numbers from Prefix's starting value on. */
  method RunCommsTime(k: Kernel, os: seq<Outcome>) returns (proc: Process?, ghost seen: seq<int>)
    requires k.Valid() && CommsTime.CommsRun(k.View(null), os)
    modifies k.alts, k.alts.chans, k.alts.timers, k.alts.timers.pool`next, k.alts.procs, k.queues, k.queues.head, k.queues.tail
    ensures k.Valid() && (proc != null || k.queues.q[k.level] != [])
    ensures seen == old(Network.Seen(CommsTime.Wires(), SchedulerRuns.LabelsOfRun(CommsTime.Wires(), k.View(null), os), 2))
    ensures CommsTime.Consecutive(seen, old(k.View(null)).procs[CommsTime.PREFIX].vars[0]) && |os| <= 24 * |seen| + 26
  {
    ghost var sys, wr := k.View(null), CommsTime.Wires();
    LoneGuardsNever(wr, sys, os);
    CommsTime.CommsTimeOnScheduler(sys, os);
    seen := Network.Seen(wr, SchedulerRuns.LabelsOfRun(wr, sys, os), 2);
    proc := RunProgram(k, wr, os);
  }
}
