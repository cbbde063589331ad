/** The scheduler loop on its own records: process records, channels and linked
    ready queues, for processes of one priority. */
module Kernel {
  import opened Types
  import opened Sequences
  import opened ReadyQueues
  import opened TimerQueue
  import opened AltKernel
  import Alt
  import AltChannels
  import Scheduler

  type Outcome = Scheduler.Outcome

  ghost function ProcOf(p: Process): Scheduler.Proc
    reads p`state, p`guards, p`index, p`count, p`altPri, p`vars
  {
    Scheduler.Proc(p.state, AltOf(p), p.vars)
  }

  function Ids(q: seq<Process>): (r: seq<Pid>)
    ensures |r| == |q| && forall i :: 0 <= i < |r| ==> r[i] == q[i].id
  {
    seq(|q|, i requires 0 <= i < |q| => q[i].id)
  }

  lemma {:induction false} EnableKeepsTimers(g: seq<Guard>, p: Pid, clock: seq<nat>, w: World, i: nat, k: nat, partner: Option<Pid>)
    requires Alt.Fits(g, w) && |clock| == |g| && i < |g| && k <= |g| && Timeless(g)
    ensures Alt.EnableFrom(g, p, clock, w, i, k, partner).world.timers == w.timers
    decreases |g| - k
  {
    if k < |g| {
      if !g[i].active {
        EnableKeepsTimers(g, p, clock, w, Alt.Plus1Mod(i, |g|), k + 1, partner);
      } else {
        var a := Alt.EnableGuard(w, p, g[i], clock[k], partner);
        if !a.ready {
          EnableKeepsTimers(g, p, clock, a.world, Alt.Plus1Mod(i, |g|), k + 1, a.partner);
        }
      }
    }
  }

  lemma {:induction false} DisableKeepsTimers(g: seq<Guard>, p: Pid, clock: seq<nat>, w: World, i: nat, k: int, index: nat, partner: Option<Pid>)
    requires Alt.Fits(g, w) && |clock| == |g| && i < |g| && k < |g| && Timeless(g)
    ensures Alt.DisableFrom(g, p, clock, w, i, k, index, partner).world.timers == w.timers
    decreases k + 1
  {
    if k >= 0 {
      if !g[i].active {
        DisableKeepsTimers(g, p, clock, w, Alt.Minus1Mod(i, |g|), k - 1, index, partner);
      } else {
        var a := Alt.DisableGuard(w, p, g[i], clock[k], partner);
        DisableKeepsTimers(g, p, clock, a.world, Alt.Minus1Mod(i, |g|), k - 1, if a.ready then i else index, a.partner);
      }
    }
  }

  lemma {:induction false} DisablePartnerElse(g: seq<Guard>, p: Pid, clock: seq<nat>, w: World, i: nat, k: int, index: nat, partner: Option<Pid>)
    requires Alt.Fits(g, w) && |clock| == |g| && i < |g| && k < |g| && partner != Some(p)
    ensures Alt.DisableFrom(g, p, clock, w, i, k, index, partner).partner != Some(p)
    decreases k + 1
  {
    if k >= 0 {
      if !g[i].active {
        DisablePartnerElse(g, p, clock, w, Alt.Minus1Mod(i, |g|), k - 1, index, partner);
      } else {
        var a := Alt.DisableGuard(w, p, g[i], clock[k], partner);
        DisablePartnerElse(g, p, clock, a.world, Alt.Minus1Mod(i, |g|), k - 1, if a.ready then i else index, a.partner);
      }
    }
  }

  /** What an iteration relies on; the invariant of the loop provides it. */
  predicate Iterable(s: Scheduler.Sys) {
    Scheduler.CanStep(s) &&
    var p := Scheduler.Current(s);
    var pr := s.procs[p];
    && (pr.state in {QUIESCENT, READY} ==> Timeless(pr.alt.guards) && Alt.OutputAlone(pr.alt.guards))
    && (pr.state == QUIESCENT ==> AltChannels.Absent(s.cells, p))
  }

  /** A process that waits is not its own partner. */
  lemma EnablePartnerElse(alt: Alternation, p: Pid, cells: seq<Cell>)
    requires Alt.Fits(alt.guards, AltChannels.Channels(cells)) && (alt.pri || alt.index < |alt.guards|)
    requires Timeless(alt.guards) && Alt.OutputAlone(alt.guards) && AltChannels.Absent(cells, p)
    ensures var e := Alt.EnableAlt(alt, p, AltChannels.Ticks(|alt.guards|), AltChannels.Channels(cells));
            !e.ready ==> e.partner != Some(p)
  {
    if AltChannels.HasOutput(alt.guards) {
      AltChannels.EnableOutput(alt, p, cells);
      var h := alt.guards[AltChannels.OutIndex(alt.guards)];
      assert AltChannels.IsOutput(h) && Alt.GuardFits(h, AltChannels.Channels(cells));
    } else {
      assert AltChannels.ChannelsOnly(alt.guards) by {
        assert forall i :: 0 <= i < |alt.guards| ==> !alt.guards[i].kind.Interrupt?;
      }
      AltChannels.EnableInputs(alt, p, cells);
    }
  }

  /** Without interrupt channels, what is delivered comes from a channel. */
  lemma DeliveredIsReceived(s: Scheduler.Sys, p: Pid, all: seq<seq<int>>)
    requires p < |s.procs| && Scheduler.AltFits(s.procs[p], s.cells) && Scheduler.CursorFits(s.procs[p])
    requires |all| == |s.procs| && forall q :: 0 <= q < |all| ==> all[q] == s.procs[q].vars
    ensures var t := Alt.DisableAlt(s.procs[p].alt, p, AltChannels.Ticks(|s.procs[p].alt.guards|), AltChannels.Channels(s.cells)).transfer;
            Delivered(t, s.procs[p].vars, all) == Scheduler.Receive(s, p, t)
  {
  }

  lemma IdsLink(q: seq<Process>, p: Process)
    requires forall x :: x in q && x.id == p.id ==> x == p
    ensures Ids(LinkLast(q, p)) == LinkLast(Ids(q), p.id)
  {
  }

  class Kernel {
    const alts: Channels
    const queues: ReadyQueues
    const level: nat

    constructor (alts: Channels, queues: ReadyQueues, level: nat)
      ensures this.alts == alts && this.queues == queues && this.level == level
    {
      this.alts, this.queues, this.level := alts, queues, level;
    }

    /** Everything the scheduler changes. */
    ghost predicate Valid()
      reads alts, alts.chans, alts.lines, alts.timers, alts.timers.pool
      reads queues, queues.head, queues.tail, queues.universe`next, queues.universe`pri, alts.procs`pri
    {
      && 1 <= level < LEVELS && alts.Valid() && queues.Valid()
      && queues.universe == (set p | p in alts.procs)
      && (forall i :: 0 <= i < |alts.procs| ==> alts.procs[i].pri == level)
      && (forall l :: 0 <= l < LEVELS && l != level ==> queues.q[l] == [])
      && alts.lines == [] && alts.timers.View().queue == []
    }

    ghost function ProcsUpTo(n: nat): (r: seq<Scheduler.Proc>)
      requires n <= |alts.procs|
      reads alts.procs`state, alts.procs`guards, alts.procs`index, alts.procs`count, alts.procs`altPri, alts.procs`vars
      ensures |r| == n && forall i :: 0 <= i < n ==> r[i] == ProcOf(alts.procs[i])
    {
      if n == 0 then [] else ProcsUpTo(n - 1) + [ProcOf(alts.procs[n - 1])]
    }

    ghost function Procs(): (r: seq<Scheduler.Proc>)
      reads alts.procs`state, alts.procs`guards, alts.procs`index, alts.procs`count, alts.procs`altPri, alts.procs`vars
      ensures |r| == |alts.procs| && forall i :: 0 <= i < |r| ==> r[i] == ProcOf(alts.procs[i])
    {
      ProcsUpTo(|alts.procs|)
    }

    /** The state of the scheduler, `proc` being the process it holds. */
    ghost function View(proc: Process?): Scheduler.Sys
      requires level < |queues.q|
      reads alts.chans, queues`q, alts.procs`state, alts.procs`guards, alts.procs`index, alts.procs`count, alts.procs`altPri, alts.procs`vars
    {
      Scheduler.Sys(Procs(), alts.Cells(), Ids(queues.q[level]), IdOf(proc))
    }

    /** A process is known by its number. */
    lemma ById(x: Process)
      requires alts.Tables() && x in alts.procs
      ensures x.id < |alts.procs| && alts.procs[x.id] == x
    {
    }

    /** A change to one process record is a change to one entry of the table. */
    twostate lemma OneProc(p: Process)
      requires alts.Tables() && p in alts.procs
      requires forall i :: 0 <= i < |alts.procs| && alts.procs[i] != p ==> ProcOf(alts.procs[i]) == old(ProcOf(alts.procs[i]))
      ensures p.id < |alts.procs| && alts.procs[p.id] == p && Procs() == old(Procs())[p.id := ProcOf(p)]
    {
      ById(p);
    }

    lemma QueueById(p: Process)
      requires Valid() && p in alts.procs
      ensures forall x :: x in queues.q[level] && x.id == p.id ==> x == p
    {
      assert queues.ListOk(level);
      forall x | x in queues.q[level] && x.id == p.id ensures x == p {
        ById(x);
        ById(p);
      }
    }

    method LinkIn(partner: Process, ghost proc: Process?)
      requires Valid() && partner in alts.procs
      modifies queues, queues.head, queues.tail, queues.universe`next
      ensures Valid() && View(proc) == old(View(proc)).(ready := LinkLast(old(View(proc)).ready, partner.id))
    {
      ById(partner);
      QueueById(partner);
      IdsLink(queues.q[level], partner);
      queues.Append(partner);
    }

    method SetState(p: Process, state: PState, ghost proc: Process?)
      requires Valid() && p in alts.procs
      modifies p`state
      ensures Valid() && p.id < |alts.procs|
      ensures View(proc) == Scheduler.SetProc(old(View(proc)), p.id, old(View(proc)).procs[p.id].(state := state))
    {
      ById(p);
      p.state := state;
      OneProc(p);
    }

    /** Makes a process ready, as the text has it: whatever the state of a process
        that is not enabling, it is made ready and linked in. */
    method ReadyProcessIfNecessary(partner: Process, ghost proc: Process?)
      requires Valid() && partner in alts.procs && partner.pri <= alts.current.pri
      modifies partner`state, queues, queues.head, queues.tail, queues.universe`next
      ensures Valid() && partner.id < |alts.procs|
      ensures View(proc) == Scheduler.ReadyProcess(Scheduler.Written, old(View(proc)), partner.id)
    {
      ById(partner);
      var enabling := partner.state == ENABLING;
      SetState(partner, READY, proc);
      if !enabling {
        LinkIn(partner, proc);
      }
    }

    // ---------- an iteration of the loop ----------

    /** The process's own code: it leaves outcome `o`. */
    method RunCode(p: Process, o: Outcome, ghost proc: Process?)
      requires Valid() && p in alts.procs
      modifies p`guards, p`index, p`count, p`altPri, p`vars, p`state
      ensures Valid() && p.id < |alts.procs|
      ensures View(proc) == Scheduler.SetProc(old(View(proc)), p.id, Scheduler.Proc(if o.done then DONE else old(p.state), o.alt, o.vars))
    {
      ById(p);
      p.Leave(o.alt, o.vars, o.done);
      OneProc(p);
    }

    /** The head of the only queue in use, which is the highest. */
    method TakeHighest() returns (proc: Process)
      requires Valid() && queues.q[level] != []
      modifies queues, queues.head, queues.tail
      ensures Valid() && proc in alts.procs && old(queues.q[level]) == [proc] + queues.q[level]
    {
      assert queues.ListOk(level);
      var highest := queues.Highest();
      assert highest == level;
      var p := queues.Take(highest);
      proc := p;
      assert old(queues.q[level])[0] in old(queues.q[level]);
    }

    /** Takes the head of the ready queue as the current process. */
    method TakeNext() returns (proc: Process)
      requires Valid() && queues.q[level] != []
      modifies alts`current, queues, queues.head, queues.tail
      ensures Valid() && alts.current == proc && proc in alts.procs
      ensures old(View(null)).ready != [] && View(proc) == Scheduler.Taken(old(View(null)))
    {
      proc := TakeHighest();
      ById(proc);
      alts.current := proc;
      assert old(Ids(queues.q[level])) == [proc.id] + Ids(queues.q[level]);
    }

    /** The current process can be enabled or disabled. */
    ghost predicate AltReady()
      reads this, alts, alts.current, alts.chans
    {
      && alts.current in alts.procs && Timeless(alts.current.guards) && Alt.OutputAlone(alts.current.guards)
      && Scheduler.AltFits(ProcOf(alts.current), alts.Cells())
    }

    ghost function Enabling(p: Process): (e: Alt.Enabled)
      requires Scheduler.AltFits(ProcOf(p), alts.Cells())
      reads p`state, p`guards, p`index, p`count, p`altPri, p`vars, alts.chans
    {
      Alt.EnableAlt(AltOf(p), p.id, AltChannels.Ticks(|p.guards|), AltChannels.Channels(alts.Cells()))
    }

    method EnableRecords() returns (ready: bool, partner: Process?)
      requires Valid() && AltReady()
      modifies alts.chans, alts.timers, alts.timers.pool`next, alts.current`index, alts.current`count
      ensures alts.timers.pool == old(alts.timers.pool)
      ensures Valid() && alts.Known(partner)
      ensures var p := alts.current; var e := old(Enabling(alts.current));
              && ready == e.ready && IdOf(partner) == e.partner && alts.Cells() == e.world.cells
              && AltOf(p) == AltChannels.WithCursor(old(AltOf(alts.current)), e)
    {
      var p := alts.current;
      var clock := seq(|p.guards|, _ => 0);
      assert clock == AltChannels.Ticks(|p.guards|);
      assert alts.View() == AltChannels.Channels(alts.Cells());
      EnableKeepsTimers(p.guards, p.id, clock, alts.View(), Alt.FirstGuard(AltOf(p)), 0, None);
      var error;
      error, ready, partner := alts.EnableAlt(clock);
    }

    /** enable_alt of the current process. */
    method Enable(ghost proc: Process?) returns (ready: bool, partner: Process?)
      requires Valid() && AltReady()
      modifies alts.chans, alts.timers, alts.timers.pool`next, alts.current`index, alts.current`count
      ensures alts.timers.pool == old(alts.timers.pool)
      ensures Valid() && alts.Known(partner) && alts.current.id < |alts.procs|
      ensures var s, p, e := old(View(proc)), alts.current.id, old(Enabling(alts.current));
              && ready == e.ready && IdOf(partner) == e.partner && View(proc) == Cursored(s, p, e)
    {
      ready, partner := EnableRecords();
      OneProc(alts.current);
    }

    ghost predicate CursorReady()
      reads alts, alts.current
    {
      Scheduler.CursorFits(ProcOf(alts.current))
    }

    ghost function Disabling(p: Process): (d: Alt.Disabled)
      requires Scheduler.AltFits(ProcOf(p), alts.Cells()) && Scheduler.CursorFits(ProcOf(p))
      reads p`state, p`guards, p`index, p`count, p`altPri, p`vars, alts.chans
    {
      Alt.DisableAlt(AltOf(p), p.id, AltChannels.Ticks(|p.guards|), AltChannels.Channels(alts.Cells()))
    }

    method DisableRecords() returns (partner: Process?)
      requires Valid() && AltReady() && CursorReady()
      modifies alts.chans`waiting, alts.timers, alts.timers.pool`next, alts.current`index, alts.current`vars
      ensures alts.timers.pool == old(alts.timers.pool)
      ensures Valid() && alts.Known(partner)
      ensures var p, d := alts.current, old(Disabling(alts.current));
              && IdOf(partner) == d.partner && alts.Cells() == d.world.cells && p.index == d.index
              && p.vars == Delivered(d.transfer, old(alts.current.vars), old(alts.Variables()))
    {
      var p := alts.current;
      ById(p);
      var clock := seq(|p.guards|, _ => 0);
      assert clock == AltChannels.Ticks(|p.guards|);
      assert alts.View() == AltChannels.Channels(alts.Cells());
      DisableKeepsTimers(p.guards, p.id, clock, alts.View(), p.index, p.count, p.index, None);
      partner := alts.DisableAlt(clock);
    }

    /** disable_alt of the current process. */
    method Disable(ghost proc: Process?) returns (partner: Process?)
      requires Valid() && AltReady() && CursorReady()
      modifies alts.chans`waiting, alts.timers, alts.timers.pool`next, alts.current`index, alts.current`vars
      ensures alts.timers.pool == old(alts.timers.pool)
      ensures Valid() && alts.Known(partner) && alts.current.id < |alts.procs|
      ensures var s, p, d := old(View(proc)), alts.current.id, old(Disabling(alts.current));
              && IdOf(partner) == d.partner && View(proc) == Moved(s, p, d)
    {
      ById(alts.current);
      DeliveredIsReceived(View(proc), alts.current.id, alts.Variables());
      partner := DisableRecords();
      OneProc(alts.current);
    }

    // ---------- an iteration of the loop ----------

    method WakePartner(partner: Process?, ghost proc: Process?)
      requires Valid() && alts.Known(partner) && alts.current in alts.procs
      modifies alts.procs`state, alts.procs`next, queues, queues.head, queues.tail
      ensures Valid() && View(proc) == Scheduler.ReadyPartner(Scheduler.Written, old(View(proc)), IdOf(partner))
    {
      if partner != null {
        assert partner in alts.procs;
        ReadyProcessIfNecessary(partner, proc);
      }
    }

    /** Wakes the partner, runs the process's code and decides whether the loop keeps the process. */
    method Finish(p: Process, partner: Process?, execute: bool, o: Outcome) returns (proc': Process?)
      requires Valid() && alts.Known(partner) && alts.current == p && p in alts.procs && p.id < |alts.procs|
      modifies alts.procs, queues, queues.head, queues.tail
      ensures Valid() && (proc' == null || proc' == p) && p.id < |alts.procs|
      ensures View(proc') == Finished(old(View(p)), p.id, IdOf(partner), execute, o)
    {
      ById(p);
      WakePartner(partner, p);
      if execute {
        RunCode(p, o, p);
      }
      if p.state == DONE || p.state == WAITING {
        proc' := null;
      } else {
        proc' := p;
      }
    }

    /** disable_alt, after which the process is involved in no ALT. */
    method DisableToRest(p: Process) returns (partner: Process?)
      requires Valid() && alts.current == p && AltReady() && CursorReady() && p.id < |alts.procs|
      modifies alts.chans`waiting, alts.timers, alts.timers.pool`next, p`index, p`vars, p`state
      ensures alts.timers.pool == old(alts.timers.pool)
      ensures Valid() && alts.Known(partner) && IdOf(partner) == old(Disabling(p)).partner
      ensures View(p) == Rested(old(View(p)), p.id, old(Disabling(p)))
    {
      ById(p);
      RestedInSteps(View(p), p.id, Disabling(p));
      partner := Disable(p);
      SetState(p, QUIESCENT, p);
    }

    /** The rest of an iteration once the current process is ready: it is disabled,
        its partner woken and its code run. */
    method SelectAndRun(p: Process, o: Outcome) returns (proc': Process?)
      requires Valid() && alts.current == p && AltReady() && CursorReady() && p.id < |alts.procs|
      modifies alts.chans`waiting, alts.timers, alts.timers.pool`next, alts.procs, queues, queues.head, queues.tail
      ensures alts.timers.pool == old(alts.timers.pool)
      ensures Valid() && (proc' == null || proc' == p)
      ensures View(proc') == Scheduler.Select(Scheduler.Written, old(View(p)), p.id, o)
    {
      ById(p);
      SelectValue(View(p), p.id, o);
      var partner := DisableToRest(p);
      proc' := Finish(p, partner, true, o);
    }

    /** Unless an interrupt has readied it, the process is ready or waits. */
    method Settle(p: Process, ready: bool)
      requires Valid() && p in alts.procs && p.id < |alts.procs|
      modifies p`state
      ensures Valid()
      ensures var s := old(View(p)); var pr := s.procs[p.id];
              View(p) == Scheduler.SetProc(s, p.id, pr.(state := if pr.state != ENABLING then pr.state else if ready then READY else WAITING))
    {
      ById(p);
      if p.state == ENABLING {
        SetState(p, if ready then READY else WAITING, p);
      } else {
        assert View(p).procs[p.id := View(p).procs[p.id]] == View(p).procs;
      }
    }

    /** enable_alt, which finds a guard ready or leaves the process waiting; no
        interrupt can have readied it meanwhile. */
    method EnableToWait(p: Process) returns (partner: Process?)
      requires Valid() && alts.current == p && AltReady() && p.id < |alts.procs| && p.state == QUIESCENT
      modifies alts.chans, alts.timers, alts.timers.pool`next, p`index, p`count, p`state
      ensures alts.timers.pool == old(alts.timers.pool)
      ensures Valid() && alts.Known(partner) && IdOf(partner) == old(Enabling(p)).partner
      ensures View(p) == Enabled(old(View(p)), p.id, old(Enabling(p)))
    {
      ById(p);
      EnabledInSteps(View(p), p.id, Enabling(p));
      SetState(p, ENABLING, p);
      var ready;
      ready, partner := Enable(p);
      Settle(p, ready);
    }

    /** The rest of an iteration once the current process has been enabled. */
    method ContinueEnabled(p: Process, partner: Process?, o: Outcome) returns (proc': Process?)
      requires Valid() && alts.current == p && p in alts.procs && p.id < |alts.procs| && alts.Known(partner)
      requires p.state == READY ==> AltReady() && CursorReady()
      modifies alts.chans`waiting, alts.timers, alts.timers.pool`next, alts.procs, queues, queues.head, queues.tail
      ensures alts.timers.pool == old(alts.timers.pool)
      ensures Valid() && (proc' == null || proc' == p)
      ensures old(p.state) == READY ==> View(proc') == Scheduler.Select(Scheduler.Written, old(View(p)), p.id, o)
      ensures old(p.state) != READY ==> View(proc') == Finished(old(View(p)), p.id, IdOf(partner), false, o)
    {
      if p.state == READY {
        proc' := SelectAndRun(p, o);
      } else {
        proc' := Finish(p, partner, false, o);
      }
    }

    method CommitAndRun(p: Process, o: Outcome) returns (proc': Process?)
      requires Valid() && alts.current == p && AltReady() && p.id < |alts.procs| && p.state == QUIESCENT
      requires AltChannels.Absent(alts.Cells(), p.id)
      modifies alts.chans, alts.timers, alts.timers.pool`next, alts.procs, queues, queues.head, queues.tail
      ensures alts.timers.pool == old(alts.timers.pool)
      ensures Valid() && (proc' == null || proc' == p)
      ensures View(proc') == Scheduler.Commit(Scheduler.Written, old(View(p)), p.id, o)
    {
      ById(p);
      CommitValue(View(p), p.id, o);
      var partner := EnableToWait(p);
      assert ProcOf(p) == View(p).procs[p.id];
      proc' := ContinueEnabled(p, partner, o);
    }

    method StartAndRun(p: Process, o: Outcome) returns (proc': Process?)
      requires Valid() && alts.current == p && p in alts.procs && p.id < |alts.procs|
      modifies p`guards, p`index, p`count, p`altPri, p`vars, p`state
      ensures Valid() && proc' == p
      ensures View(p) == Scheduler.SetProc(old(View(p)), p.id, Scheduler.Proc(QUIESCENT, o.alt, o.vars))
    {
      ById(p);
      StartInSteps(View(p), p.id, o);
      RunCode(p, o, p);
      SetState(p, QUIESCENT, p);
      proc' := p;
    }

    /** What an iteration relies on, for the process it works on. */
    ghost predicate CanIterate(p: Process)
      reads this, alts, p, alts.chans
    {
      && alts.current == p && p in alts.procs && p.id < |alts.procs|
      && (p.state in {QUIESCENT, READY} ==> AltReady())
      && (p.state == READY ==> CursorReady())
      && (p.state == QUIESCENT ==> AltChannels.Absent(alts.Cells(), p.id))
    }

    /** An iteration with process `p` taken, by the state it is in. */
    method Work(p: Process, o: Outcome) returns (proc': Process?)
      requires Valid() && CanIterate(p) && p.state in {INITIAL, QUIESCENT, READY}
      modifies alts.chans, alts.timers, alts.timers.pool`next, alts.procs, queues, queues.head, queues.tail
      ensures alts.timers.pool == old(alts.timers.pool)
      ensures Valid() && (proc' == null || proc' == p)
      ensures old(p.state) == INITIAL ==>
                View(proc') == Scheduler.SetProc(old(View(p)), p.id, Scheduler.Proc(QUIESCENT, o.alt, o.vars))
      ensures old(p.state) == QUIESCENT ==> View(proc') == Scheduler.Commit(Scheduler.Written, old(View(p)), p.id, o)
      ensures old(p.state) == READY ==> View(proc') == Scheduler.Select(Scheduler.Written, old(View(p)), p.id, o)
    {
      ById(p);
      if p.state == INITIAL {
        proc' := StartAndRun(p, o);
      } else if p.state == QUIESCENT {
        proc' := CommitAndRun(p, o);
      } else {
        proc' := SelectAndRun(p, o);
      }
    }

    /** The process of the iteration: the one the loop holds or else the next one queued. */
    method Begin(proc: Process?) returns (p: Process)
      requires Valid() && (proc != null ==> alts.current == proc) && Scheduler.Running(View(proc)) && Iterable(View(proc))
      modifies alts`current, queues, queues.head, queues.tail
      ensures Valid() && CanIterate(p) && View(p) == Scheduler.Taken(old(View(proc)))
      ensures old(Scheduler.Running(View(proc))) && p.id == Scheduler.Current(old(View(proc)))
      ensures p.state == old(View(proc)).procs[p.id].state
    {
      if proc == null {
        p := TakeNext();
      } else {
        p := proc;
      }
      ById(p);
      assert ProcOf(p) == View(p).procs[p.id];
    }

    /** One iteration of the scheduler loop: `proc` is the process the loop holds,
        and `o` the outcome of the code it runs. */
    method Iterate(proc: Process?, o: Outcome) returns (proc': Process?)
      requires Valid() && (proc != null ==> alts.current == proc) && Scheduler.Running(View(proc)) && Iterable(View(proc))
      requires View(proc).procs[Scheduler.Current(View(proc))].state in {INITIAL, QUIESCENT, READY}
      modifies alts, alts.chans, alts.timers, alts.timers.pool`next, alts.procs, queues, queues.head, queues.tail
      ensures alts.timers.pool == old(alts.timers.pool)
      ensures Valid() && (proc' != null ==> alts.current == proc')
      ensures View(proc') == Scheduler.Step(Scheduler.Written, old(View(proc)), o)
    {
      StepByState(View(proc), o);
      var p := Begin(proc);
      proc' := Work(p, o);
    }

    /** The iteration with the next of the outcomes. */
    method IterateNext(proc: Process?, os: seq<Outcome>, i: nat, ghost goal: Scheduler.Sys) returns (proc': Process?)
      requires Valid() && (proc != null ==> alts.current == proc) && i < |os|
      requires LeadsTo(View(proc), os, i, goal) && Scheduler.Running(View(proc))
      modifies alts, alts.chans, alts.timers, alts.timers.pool`next, alts.procs, queues, queues.head, queues.tail
      ensures alts.timers.pool == old(alts.timers.pool)
      ensures Valid() && (proc' != null ==> alts.current == proc')
      ensures LeadsTo(View(proc'), os, i + 1, goal)
    {
      RanOnce(View(proc), os, i);
      proc' := Iterate(proc, os[i]);
    }

    /** The loop over the iterations of a run; it ends early when nothing is ready. */
    method Schedule(os: seq<Outcome>) returns (proc: Process?)
      requires Valid() && RunsWell(View(null), os)
      modifies alts, alts.chans, alts.timers, alts.timers.pool`next, alts.procs, queues, queues.head, queues.tail
      ensures Valid() && View(proc) == Ran(old(View(null)), os)
    {
      proc := null;
      var i := 0;
      ghost var goal := Ran(View(null), os);
      assert os[0..] == os;
      while i < |os|
        invariant Valid() && alts.timers.pool == old(alts.timers.pool) && (proc != null ==> alts.current == proc)
        invariant LeadsTo(View(proc), os, i, goal)
      {
        var empty := queues.IsEmpty(level);
        if proc == null && empty {
          break;
        }
        proc := IterateNext(proc, os, i, goal);
        i := i + 1;
      }
      RanEnds(View(proc), os, i, goal);
    }
  }

  /** The rest of the run, from outcome `i` on, leads to `goal`. */
  ghost predicate LeadsTo(s: Scheduler.Sys, os: seq<Outcome>, i: nat, goal: Scheduler.Sys) {
    i <= |os| && RunsWell(s, os[i..]) && Ran(s, os[i..]) == goal
  }

  lemma RanEnds(s: Scheduler.Sys, os: seq<Outcome>, i: nat, goal: Scheduler.Sys)
    requires LeadsTo(s, os, i, goal) && (i == |os| || !Scheduler.Running(s))
    ensures s == goal
  {
  }

  lemma StepByState(s: Scheduler.Sys, o: Outcome)
    requires Scheduler.Running(s) && Iterable(s)
    ensures var p, s1 := Scheduler.Current(s), Scheduler.Taken(s);
            && p < |s1.procs| && var pr := s1.procs[p];
            && (pr.state == INITIAL ==>
                  Scheduler.Step(Scheduler.Written, s, o) == Scheduler.SetProc(s1, p, Scheduler.Proc(QUIESCENT, o.alt, o.vars)))
            && (pr.state == QUIESCENT ==>
                  Scheduler.AltFits(pr, s1.cells) && Scheduler.Step(Scheduler.Written, s, o) == Scheduler.Commit(Scheduler.Written, s1, p, o))
            && (pr.state == READY ==>
                  Scheduler.AltFits(pr, s1.cells) && Scheduler.CursorFits(pr)
                  && Scheduler.Step(Scheduler.Written, s, o) == Scheduler.Select(Scheduler.Written, s1, p, o))
  {
  }

  /** Every iteration of the run finds what it relies on. */
  ghost predicate RunsWell(s: Scheduler.Sys, os: seq<Outcome>)
    decreases |os|
  {
    os == [] || !Scheduler.Running(s) ||
    (Iterable(s) && s.procs[Scheduler.Current(s)].state in {INITIAL, QUIESCENT, READY}
     && RunsWell(Scheduler.Step(Scheduler.Written, s, os[0]), os[1..]))
  }

  ghost function Ran(s: Scheduler.Sys, os: seq<Outcome>): Scheduler.Sys
    requires RunsWell(s, os)
    decreases |os|
  {
    if os == [] || !Scheduler.Running(s) then s else Ran(Scheduler.Step(Scheduler.Written, s, os[0]), os[1..])
  }

  lemma RanOnce(s: Scheduler.Sys, os: seq<Outcome>, i: nat)
    requires i < |os| && RunsWell(s, os[i..]) && Scheduler.Running(s)
    ensures Iterable(s) && s.procs[Scheduler.Current(s)].state in {INITIAL, QUIESCENT, READY}
    ensures var s' := Scheduler.Step(Scheduler.Written, s, os[i]);
            RunsWell(s', os[i + 1..]) && Ran(s, os[i..]) == Ran(s', os[i + 1..])
  {
  }

  /** The system once its process `p` has been enabled with result `e`. */
  function Enabled(s: Scheduler.Sys, p: Pid, e: Alt.Enabled): Scheduler.Sys
    requires p < |s.procs|
  {
    var pr := s.procs[p];
    Scheduler.SetProc(s, p, pr.(state := if e.ready then READY else WAITING, alt := AltChannels.WithCursor(pr.alt, e))).(cells := e.world.cells)
  }

  function Cursored(s: Scheduler.Sys, p: Pid, e: Alt.Enabled): Scheduler.Sys
    requires p < |s.procs|
  {
    Scheduler.SetProc(s, p, s.procs[p].(alt := AltChannels.WithCursor(s.procs[p].alt, e))).(cells := e.world.cells)
  }

  function Moved(s: Scheduler.Sys, p: Pid, d: Alt.Disabled): Scheduler.Sys
    requires p < |s.procs|
  {
    Scheduler.SetProc(s, p, Scheduler.Proc(s.procs[p].state, s.procs[p].alt.(index := d.index), Scheduler.Receive(s, p, d.transfer)))
    .(cells := d.world.cells)
  }

  lemma EnabledInSteps(s: Scheduler.Sys, p: Pid, e: Alt.Enabled)
    requires p < |s.procs|
    ensures var s2 := Cursored(Scheduler.SetProc(s, p, s.procs[p].(state := ENABLING)), p, e);
            Scheduler.SetProc(s2, p, s2.procs[p].(state := if e.ready then READY else WAITING)) == Enabled(s, p, e)
  {
  }

  lemma StartInSteps(s: Scheduler.Sys, p: Pid, o: Outcome)
    requires p < |s.procs|
    ensures var s1 := Scheduler.SetProc(s, p, Scheduler.Proc(if o.done then DONE else s.procs[p].state, o.alt, o.vars));
            Scheduler.SetProc(s1, p, s1.procs[p].(state := QUIESCENT)) == Scheduler.SetProc(s, p, Scheduler.Proc(QUIESCENT, o.alt, o.vars))
  {
  }

  lemma RestedInSteps(s: Scheduler.Sys, p: Pid, d: Alt.Disabled)
    requires p < |s.procs|
    ensures Scheduler.SetProc(Moved(s, p, d), p, Moved(s, p, d).procs[p].(state := QUIESCENT)) == Rested(s, p, d)
  {
  }

  /** Enabling, as the steps of the loop compose it. */
  lemma CommitValue(s: Scheduler.Sys, p: Pid, o: Outcome)
    requires p < |s.procs| && Scheduler.AltFits(s.procs[p], s.cells) && s.held == Some(p)
    requires Timeless(s.procs[p].alt.guards) && Alt.OutputAlone(s.procs[p].alt.guards) && AltChannels.Absent(s.cells, p)
    ensures var alt := s.procs[p].alt;
            var e := Alt.EnableAlt(alt, p, AltChannels.Ticks(|alt.guards|), AltChannels.Channels(s.cells));
            var s1 := Enabled(s, p, e);
            && Scheduler.AltFits(s1.procs[p], s1.cells) && Scheduler.CursorFits(s1.procs[p])
            && Scheduler.Commit(Scheduler.Written, s, p, o) ==
               if e.ready then Scheduler.Select(Scheduler.Written, s1, p, o) else Finished(s1, p, e.partner, false, o)
  {
    var alt := s.procs[p].alt;
    var e := Alt.EnableAlt(alt, p, AltChannels.Ticks(|alt.guards|), AltChannels.Channels(s.cells));
    Scheduler.EnableFits(alt, p, s.cells);
    EnablePartnerElse(alt, p, s.cells);
    var s1 := Enabled(s, p, e);
    if !e.ready {
      assert Scheduler.ReadyPartner(Scheduler.Written, s1, e.partner).procs[p] == s1.procs[p];
    }
  }

  /** The system once its process `p` has been disabled with result `d`. */
  function Rested(s: Scheduler.Sys, p: Pid, d: Alt.Disabled): Scheduler.Sys
    requires p < |s.procs|
  {
    Scheduler.SetProc(s, p, Scheduler.Proc(QUIESCENT, s.procs[p].alt.(index := d.index), Scheduler.Receive(s, p, d.transfer))).(cells := d.world.cells)
  }

  /** The system once the partner has been woken and the code of `p`, if it is due, has run. */
  function Finished(s: Scheduler.Sys, p: Pid, partner: Option<Pid>, execute: bool, o: Outcome): Scheduler.Sys
    requires p < |s.procs|
  {
    var s1 := Scheduler.ReadyPartner(Scheduler.Written, s, partner);
    var s2 := if execute then Scheduler.SetProc(s1, p, Scheduler.Proc(if o.done then DONE else s1.procs[p].state, o.alt, o.vars)) else s1;
    if s2.procs[p].state in {DONE, WAITING} then s2.(held := None) else s2
  }

  /** Selecting, as the steps of the loop compose it. */
  lemma SelectValue(s: Scheduler.Sys, p: Pid, o: Outcome)
    requires p < |s.procs| && Scheduler.AltFits(s.procs[p], s.cells) && Scheduler.CursorFits(s.procs[p]) && s.held == Some(p)
    ensures var alt := s.procs[p].alt;
            var d := Alt.DisableAlt(alt, p, AltChannels.Ticks(|alt.guards|), AltChannels.Channels(s.cells));
            Scheduler.Select(Scheduler.Written, s, p, o) == Finished(Rested(s, p, d), p, d.partner, true, o)
  {
    var alt := s.procs[p].alt;
    var d := Alt.DisableAlt(alt, p, AltChannels.Ticks(|alt.guards|), AltChannels.Channels(s.cells));
    DisablePartnerElse(alt.guards, p, AltChannels.Ticks(|alt.guards|), AltChannels.Channels(s.cells), alt.index, alt.count, alt.index, None);
    var s1 := Rested(s, p, d);
    assert Scheduler.ReadyPartner(Scheduler.Written, s1, d.partner).procs[p] == s1.procs[p];
  }
}
