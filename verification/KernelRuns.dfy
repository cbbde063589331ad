/** Whole runs of the scheduler loop on its own records. */
module KernelRuns {
  import opened Types
  import opened ReadyQueues
  import opened Kernel
  import opened SchedulerInv
  import Scheduler
  import SchedulerRuns
  import SchedulerMoves
  import SchedulerText

  /** The invariant provides what every iteration relies on. */
  lemma InvIterable(wr: Wiring, s: Scheduler.Sys)
    requires Inv(wr, s) && Scheduler.Running(s)
    ensures Iterable(s) && s.procs[Scheduler.Current(s)].state in {INITIAL, QUIESCENT, READY}
  {
    InvCanStep(wr, s);
    var p := Scheduler.Current(s);
    if s.procs[p].state != INITIAL {
      BehavedFits(wr, p, s.procs[p], s.cells);
    }
    if s.procs[p].state == QUIESCENT {
      AbsentUnlessCommitted(wr, s, p);
    }
  }

  /** No iteration of the run readies a process that is already queued before others. */
  ghost predicate NeverReadiesAgain(s: Scheduler.Sys, os: seq<Outcome>)
    decreases |os|
  {
    os == [] || !Scheduler.CanStep(s) ||
    (!SchedulerText.ReadiesAgain(s) && NeverReadiesAgain(Scheduler.Step(Scheduler.Intended, s, os[0]), os[1..]))
  }

  /** Such a run goes on the records as it is intended to. */
  lemma {:induction false} RanIsIntended(wr: Wiring, s: Scheduler.Sys, os: seq<Outcome>)
    requires Inv(wr, s) && SchedulerRuns.GoodRun(wr, s, os) && NeverReadiesAgain(s, os)
    ensures RunsWell(s, os) && Ran(s, os) == SchedulerRuns.RunAll(wr, s, os)
    decreases |os|
  {
    if os != [] {
      InvIterable(wr, s);
      SchedulerText.WrittenIsIntended(wr, s, os[0]);
      SchedulerMoves.InvStep(wr, s, os[0]);
      RanIsIntended(wr, Scheduler.Step(Scheduler.Intended, s, os[0]), os[1..]);
    }
  }

  /** Programs whose processes have one active guard at a time have only such runs. */
  lemma {:induction false} LoneGuardsNever(wr: Wiring, s: Scheduler.Sys, os: seq<Outcome>)
    requires Inv(wr, s) && SchedulerRuns.GoodRun(wr, s, os) && SchedulerText.LoneGuards(s)
    requires forall o :: o in os ==> SchedulerText.LoneGuard(o.alt.guards)
    ensures NeverReadiesAgain(s, os)
    decreases |os|
  {
    if os != [] {
      SchedulerText.LoneNeverReadiesAgain(wr, s);
      SchedulerMoves.InvStep(wr, s, os[0]);
      assert os[0] in os;
      SchedulerText.LoneStep(wr, s, os[0]);
      LoneGuardsNever(wr, Scheduler.Step(Scheduler.Intended, s, os[0]), os[1..]);
    }
  }

  /** The loop on its records, from the start of a program: it is in the state the
      intended run leads to, and the invariant holds there. */
  method RunProgram(k: Kernel, ghost wr: Wiring, os: seq<Outcome>) returns (proc: Process?)
    requires k.Valid() && Initial(wr, k.View(null))
    requires SchedulerRuns.GoodRun(wr, k.View(null), os) && NeverReadiesAgain(k.View(null), os)
    modifies k.alts, k.alts.chans, k.alts.timers, k.alts.timers.pool`next, k.alts.procs, k.queues, k.queues.head, k.queues.tail
    ensures k.Valid() && Inv(wr, k.View(proc))
    ensures old(SchedulerRuns.GoodRun(wr, k.View(null), os)) && k.View(proc) == old(SchedulerRuns.RunAll(wr, k.View(null), os))
  {
    InvAtStart(wr, k.View(null));
    RanIsIntended(wr, k.View(null), os);
    SchedulerRuns.InvRuns(wr, k.View(null), os);
    proc := k.Schedule(os);
  }
}
