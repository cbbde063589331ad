/** enable_alt and disable_alt on the scheduler's own records. */
module AltKernel {
  import opened Types
  import opened ReadyQueues
  import opened TimerQueue
  import Alt
  import AltLaws
  import TimeoutList
  import TimerLaws

  class Channel {
    var waiting: Process?
    var src: Option<Address>

    constructor ()
      ensures waiting == null && src == None
    {
      waiting, src := null, None;
    }
  }

  class InterruptChannel {
    var waiting: Process?
    var count: nat

    constructor ()
      ensures waiting == null && count == 0
    {
      waiting, count := null, 0;
    }
  }

  /** No guard of the ALT is a timeout. */
  predicate Timeless(g: seq<Guard>) {
    forall i :: 0 <= i < |g| ==> !g[i].kind.Timeout?
  }

  function IdOf(p: Process?): Option<Pid> {
    if p == null then None else Some(p.id)
  }

  /** The records enabling and disabling an ALT touch. */
  class Channels {
    const procs: seq<Process>
    const chans: seq<Channel>
    const lines: seq<InterruptChannel>
    const timers: TimerQueue
    var current: Process

    constructor (procs: seq<Process>, chans: seq<Channel>, lines: seq<InterruptChannel>, timers: TimerQueue, current: Process)
      ensures this.procs == procs && this.chans == chans && this.lines == lines && this.timers == timers && this.current == current
    {
      this.procs, this.chans, this.lines, this.timers, this.current := procs, chans, lines, timers, current;
    }

    ghost predicate Tables() {
      && (forall i :: 0 <= i < |procs| ==> procs[i].id == i)
      && (forall i, j :: 0 <= i < j < |chans| ==> chans[i] != chans[j])
      && (forall i, j :: 0 <= i < j < |lines| ==> lines[i] != lines[j])
    }

    ghost predicate Known(p: Process?) {
      p == null || (p.id < |procs| && procs[p.id] == p)
    }

    ghost predicate Valid()
      reads this, chans, lines, timers, timers.pool
    {
      && Tables() && timers.Valid() && Known(current)
      && (forall c :: 0 <= c < |chans| ==> Known(chans[c].waiting))
      && (forall l :: 0 <= l < |lines| ==> Known(lines[l].waiting))
    }

    ghost function Cells(): (r: seq<Cell>)
      reads chans
      ensures |r| == |chans| && forall c :: 0 <= c < |r| ==> r[c] == Cell(IdOf(chans[c].waiting), chans[c].src)
    {
      seq(|chans|, c requires 0 <= c < |chans| reads chans => Cell(IdOf(chans[c].waiting), chans[c].src))
    }

    ghost function Lines(): (r: seq<Line>)
      reads lines
      ensures |r| == |lines| && forall l :: 0 <= l < |r| ==> r[l] == Line(IdOf(lines[l].waiting), lines[l].count)
    {
      seq(|lines|, l requires 0 <= l < |lines| reads lines => Line(IdOf(lines[l].waiting), lines[l].count))
    }

    ghost function View(): World
      reads this, chans, lines, timers
    {
      World(Cells(), Lines(), timers.View().queue)
    }

    // ---------- single guards ----------

    method EnableChannelInput(c: nat, partner: Process?) returns (ready: bool, partner': Process?)
      requires Valid() && c < |chans| && Known(partner)
      modifies chans`waiting
      ensures Valid() && Known(partner')
      ensures Alt.Attempt(View(), ready, IdOf(partner')) == Alt.EnableChannelInput(old(View()), current.id, c, IdOf(partner))
    {
      var chan := chans[c];
      partner' := partner;
      if chan.waiting != null {
        if chan.waiting == current {
          ready := false;
        } else {
          partner' := chan.waiting;
          ready := true;
        }
      } else {
        chan.waiting := current;
        ready := false;
        assert Cells() == old(Cells())[c := old(Cells())[c].(waiting := Some(current.id))];
      }
    }

    method DisableChannelInput(c: nat, partner: Process?) returns (ready: bool, partner': Process?)
      requires Valid() && c < |chans| && Known(partner)
      modifies chans`waiting
      ensures Valid() && Known(partner')
      ensures Alt.Attempt(View(), ready, IdOf(partner')) == Alt.DisableChannelInput(old(View()), current.id, c, IdOf(partner))
    {
      var chan := chans[c];
      partner' := partner;
      if chan.waiting != null {
        if chan.waiting != current {
          partner' := chan.waiting;
          ready := true;
        } else {
          chan.waiting := null;
          ready := false;
          assert Cells() == old(Cells())[c := old(Cells())[c].(waiting := None)];
        }
      } else {
        ready := false;
      }
    }

    method EnableChannelOutput(c: nat, src: nat) returns (ready: bool, partner': Process?)
      requires Valid() && c < |chans|
      modifies chans
      ensures Valid() && Known(partner')
      ensures Alt.Attempt(View(), ready, IdOf(partner')) == Alt.EnableChannelOutput(old(View()), current.id, c, src)
    {
      var chan := chans[c];
      partner' := chan.waiting;
      chan.waiting := current;
      chan.src := Some(Address(current.id, src));
      ready := false;
      assert Cells() == old(Cells())[c := Cell(Some(current.id), Some(Address(current.id, src)))];
    }

    method EnableInterruptChannel(l: nat) returns (ready: bool)
      requires Valid() && l < |lines|
      modifies lines`waiting
      ensures Valid()
      ensures var a := Alt.EnableInterruptChannel(old(View()), current.id, l, None); View() == a.world && ready == a.ready
    {
      var chan := lines[l];
      if chan.count == 0 {
        chan.waiting := current;
        ready := false;
        assert Lines() == old(Lines())[l := old(Lines())[l].(waiting := Some(current.id))];
      } else {
        ready := true;
      }
    }

    method DisableInterruptChannel(l: nat) returns (ready: bool)
      requires Valid() && l < |lines|
      modifies lines`waiting
      ensures Valid()
      ensures var a := Alt.DisableInterruptChannel(old(View()), l, None); View() == a.world && ready == a.ready
    {
      var chan := lines[l];
      chan.waiting := null;
      ready := chan.count > 0;
      assert Lines() == old(Lines())[l := old(Lines())[l].(waiting := None)];
    }

    /** The handler's part in its interrupt channel; `waiting` is to be readied. */
    method CountInterrupt(l: nat) returns (waiting: Process?)
      requires Valid() && l < |lines|
      modifies lines`count
      ensures Valid() && Known(waiting) && IdOf(waiting) == old(View()).lines[l].waiting
      ensures View() == old(View()).(lines := Alt.Interrupted(old(View()).lines, l))
      ensures lines[l].count == old(lines[l].count) + 1
    {
      var chan := lines[l];
      chan.count := chan.count + 1;
      waiting := chan.waiting;
      assert Lines() == Alt.Interrupted(old(Lines()), l);
    }

    method EnableTimeout(time: nat, now: nat) returns (ready: bool)
      requires Valid() && time < TimerLaws.WIDTH && now < TimerLaws.WIDTH
      modifies timers, timers.pool`next
      ensures Valid() && fresh(timers.pool - old(timers.pool))
      ensures var a := Alt.EnableTimeout(old(View()), current.id, time, now, None); View() == a.world && ready == a.ready
      ensures ready <==> time <= now
      ensures multiset(View().timers) == multiset(old(View()).timers) + (if ready then multiset{} else multiset{Entry(time, current.id)})
    {
      TimeoutList.InsertConserves(View().timers, Entry(time, current.id));
      var timeout := new Timeout(time, current.id);
      ready := timers.EnableTimeout(timeout, now, now);
      assert Cells() == old(Cells()) && Lines() == old(Lines());
    }

    method DisableTimeout(time: nat, now: nat) returns (ready: bool)
      requires Valid()
      modifies timers, timers.pool`next
      ensures Valid() && timers.pool == old(timers.pool)
      ensures var a := Alt.DisableTimeout(old(View()), current.id, time, now, None); View() == a.world && ready == a.ready
      ensures ready <==> time <= now
      ensures multiset(View().timers) == multiset(old(View()).timers) - multiset{Entry(time, current.id)}
    {
      TimeoutList.RemoveFirstMatch(View().timers, time, current.id);
      ready := timers.DisableTimeout(time, current.id, now);
    }

    // ---------- one guard of an ALT ----------

    ghost predicate TimesFit(g: seq<Guard>) {
      forall i :: 0 <= i < |g| && g[i].kind.Timeout? ==> g[i].kind.time < TimerLaws.WIDTH
    }

    method EnableGuard(g: Guard, now: nat, partner: Process?) returns (ready: bool, partner': Process?)
      requires Valid() && Alt.GuardFits(g, View()) && Known(partner) && now < TimerLaws.WIDTH
      requires g.kind.Timeout? ==> g.kind.time < TimerLaws.WIDTH
      modifies chans, lines`waiting, timers, timers.pool`next
      ensures Valid() && Known(partner') && fresh(timers.pool - old(timers.pool))
      ensures Alt.Attempt(View(), ready, IdOf(partner')) == Alt.EnableGuard(old(View()), current.id, g, now, IdOf(partner))
      ensures !g.kind.Timeout? ==> timers.pool == old(timers.pool)
    {
      partner' := partner;
      match g.kind
      case ChanIn(c, _) => ready, partner' := EnableChannelInput(c, partner);
      case ChanOut(c, src) => ready, partner' := EnableChannelOutput(c, src);
      case Skip => ready := true;
      case Timeout(time) => ready := EnableTimeout(time, now);
      case Interrupt(l, _) => ready := EnableInterruptChannel(l);
    }

    method DisableGuard(g: Guard, now: nat, partner: Process?) returns (ready: bool, partner': Process?)
      requires Valid() && Alt.GuardFits(g, View()) && Known(partner)
      modifies chans`waiting, lines`waiting, timers, timers.pool`next
      ensures Valid() && Known(partner') && timers.pool == old(timers.pool)
      ensures Alt.Attempt(View(), ready, IdOf(partner')) == Alt.DisableGuard(old(View()), current.id, g, now, IdOf(partner))
    {
      partner' := partner;
      match g.kind
      case ChanIn(c, _) => ready, partner' := DisableChannelInput(c, partner);
      case ChanOut(_, _) => ready := true;
      case Skip => ready := true;
      case Timeout(time) => ready := DisableTimeout(time, now);
      case Interrupt(l, _) => ready := DisableInterruptChannel(l);
    }

    // ---------- the output guard restriction ----------

    /** Counts the active guards and looks for an active output. */
    method CheckOutputs(g: seq<Guard>) returns (ok: bool)
      ensures ok <==> Alt.OutputAlone(g)
    {
      var activeOutput, nrActive := false, 0;
      ghost var a := 0;
      for i := 0 to |g|
        invariant activeOutput <==> exists j :: 0 <= j < i && g[j].active && g[j].kind.ChanOut?
        invariant nrActive == 0 <==> forall j :: 0 <= j < i ==> !g[j].active
        invariant nrActive >= 1 ==> a < i && g[a].active
        invariant nrActive == 1 ==> forall j :: 0 <= j < i && g[j].active ==> j == a
        invariant nrActive > 1 ==> exists j :: 0 <= j < i && g[j].active && j != a
        invariant nrActive >= 0 && a >= 0
      {
        if g[i].active {
          if nrActive == 0 { a := i; }
          nrActive := nrActive + 1;
          if g[i].kind.ChanOut? {
            activeOutput := true;
          }
        }
      }
      ok := !(activeOutput && nrActive > 1);
    }

    // ---------- the ALT of the current process ----------

    /** The clock readings are in range and one for each guard. */
    ghost predicate Readings(clock: seq<nat>, n: nat) {
      |clock| == n && forall k :: 0 <= k < n ==> clock[k] < TimerLaws.WIDTH
    }

    /** Enables the guards of the current process in order from guard `i`, up to
        the first that is ready; `k` counts the guards passed. */
    method EnableGuards(g: seq<Guard>, clock: seq<nat>, first: nat) returns (ready: bool, partner: Process?, i: nat, k: nat)
      requires Valid() && Alt.Fits(g, View()) && Readings(clock, |g|) && TimesFit(g) && first < |g|
      modifies chans, lines`waiting, timers, timers.pool`next
      ensures Valid() && Known(partner) && fresh(timers.pool - old(timers.pool))
      ensures i < |g| && k <= |g|
      ensures Timeless(g) ==> timers.pool == old(timers.pool)
      ensures Alt.EnableFrom(g, current.id, clock, old(View()), first, 0, None) ==
              if ready then Alt.Enabled(View(), true, IdOf(partner), i, k)
              else Alt.Enabled(View(), false, IdOf(partner), Alt.Minus1Mod(i, |g|), k - 1)
    {
      ready, partner, i, k := false, null, first, 0;
      while k < |g| && !ready
        invariant Valid() && Known(partner) && fresh(timers.pool - old(timers.pool))
        invariant i < |g| && k <= |g| && (ready ==> k < |g|)
        invariant Timeless(g) ==> timers.pool == old(timers.pool)
        invariant |View().cells| == |old(View()).cells| && |View().lines| == |old(View()).lines|
        invariant Alt.EnableFrom(g, current.id, clock, old(View()), first, 0, None) ==
                  if ready then Alt.Enabled(View(), true, IdOf(partner), i, k)
                  else Alt.EnableFrom(g, current.id, clock, View(), i, k, IdOf(partner))
        decreases |g| - k, if ready then 0 else 1
      {
        if g[i].active {
          ready, partner := EnableGuard(g[i], clock[k], partner);
        }
        if !ready {
          k := k + 1;
          i := Alt.Plus1Mod(i, |g|);
        }
      }
    }

    /** Enables the ALT of the current process; `error` tells of an active output
        beside another active guard, which stops the program. */
    method EnableAlt(clock: seq<nat>) returns (error: bool, ready: bool, partner: Process?)
      requires Valid() && Alt.Fits(current.guards, View()) && Readings(clock, |current.guards|) && TimesFit(current.guards)
      requires current.altPri || current.index < |current.guards|
      modifies chans, lines`waiting, timers, timers.pool`next, current`index, current`count
      ensures Valid() && Known(partner) && fresh(timers.pool - old(timers.pool))
      ensures error <==> !Alt.OutputAlone(current.guards)
      ensures error ==> View() == old(View())
      ensures Timeless(current.guards) ==> timers.pool == old(timers.pool)
      ensures !error ==> Alt.Enabled(View(), ready, IdOf(partner), current.index, current.count) ==
                         Alt.EnableAlt(old(AltOf(current)), current.id, clock, old(View()))
    {
      ready, partner := false, null;
      var ok := CheckOutputs(current.guards);
      error := !ok;
      if ok {
        var n := |current.guards|;
        var i, k;
        ready, partner, i, k := EnableGuards(current.guards, clock, if current.altPri then 0 else Alt.Plus1Mod(current.index, n));
        current.index := if ready then i else Alt.Minus1Mod(i, n);
        current.count := if ready then k else (k as int) - 1;
      }
    }

    /** Disables the guards of the current process back from position `k`, keeping
        the last one found ready. */
    method DisableGuards(g: seq<Guard>, clock: seq<nat>, index: nat, count: int) returns (selected: nat, partner: Process?)
      requires Valid() && Alt.Fits(g, View()) && |clock| == |g| && index < |g| && count < |g|
      modifies chans`waiting, lines`waiting, timers, timers.pool`next
      ensures Valid() && Known(partner) && timers.pool == old(timers.pool)
      ensures Alt.DisableFrom(g, current.id, clock, old(View()), index, count, index, None) ==
              Alt.Walk(View(), selected, IdOf(partner))
    {
      selected, partner := index, null;
      var i, k := index, count;
      while k >= 0
        invariant Valid() && Known(partner) && timers.pool == old(timers.pool) && 0 <= i < |g| && k < |g|
        invariant |View().cells| == |old(View()).cells| && |View().lines| == |old(View()).lines|
        invariant Alt.DisableFrom(g, current.id, clock, old(View()), index, count, index, None) ==
                  Alt.DisableFrom(g, current.id, clock, View(), i, k, selected, IdOf(partner))
        decreases k
      {
        if g[i].active {
          var ready;
          ready, partner := DisableGuard(g[i], clock[k], partner);
          if ready {
            selected := i;
          }
        }
        k := k - 1;
        i := Alt.Minus1Mod(i, |g|);
      }
    }

    /** Copies the outputter's variable and leaves the channel empty. */
    method CompleteInput(c: nat, dest: nat)
      requires Valid() && c < |chans| && current.id < |procs|
      modifies chans`waiting, current`vars
      ensures Valid() && View() == Alt.Complete(Guard(ChanIn(c, dest), true), old(View())).0
      ensures current.vars == Delivered(Alt.FromChannel(dest, old(chans[c].src)), old(current.vars), old(Variables()))
      ensures Stores(old(current.vars), current.vars, Some(dest), Offered(old(chans[c].src), old(Variables())))
    {
      var chan := chans[c];
      if chan.src.Some? {
        var Address(q, x) := chan.src.value;
        if dest < |current.vars| && q < |procs| && x < |procs[q].vars| {
          current.vars := current.vars[dest := procs[q].vars[x]];
        }
      }
      chan.waiting := null;
      assert Cells() == old(Cells())[c := old(Cells())[c].(waiting := None)];
    }

    /** Hands over the interrupt count, if it is wanted, and clears it. */
    method CompleteInterrupt(l: nat, into: Option<nat>)
      requires Valid() && l < |lines| && current.id < |procs|
      modifies lines`count, current`vars
      ensures Valid() && View() == Alt.Complete(Guard(Interrupt(l, into), true), old(View())).0
      ensures current.vars == Delivered(Alt.FromLine(into, old(lines[l].count)), old(current.vars), old(Variables()))
      ensures Stores(old(current.vars), current.vars, into, Some(old(lines[l].count)))
    {
      if into.Some? && into.value < |current.vars| {
        current.vars := current.vars[into.value := lines[l].count];
      }
      lines[l].count := 0;
      assert Lines() == old(Lines())[l := old(Lines())[l].(count := 0)];
    }

    /** The data the selected branch moves: the outputter's variable, or the
        interrupt count, which is cleared. */
    method CompleteBranch(h: Guard) returns (ghost transfer: Alt.Transfer)
      requires Valid() && Alt.GuardFits(h, View())
      requires current.id < |procs|
      modifies chans`waiting, lines`count, current`vars
      ensures Valid() && (View(), transfer) == Alt.Complete(h, old(View()))
      ensures current.vars == Delivered(transfer, old(current.vars), old(Variables()))
      ensures h.kind.ChanIn? ==>
                Stores(old(current.vars), current.vars, Some(h.kind.dest), Offered(old(chans[h.kind.chan].src), old(Variables())))
      ensures h.kind.Interrupt? ==> Stores(old(current.vars), current.vars, h.kind.into, Some(old(lines[h.kind.line].count)))
      ensures !h.kind.ChanIn? && !h.kind.Interrupt? ==> current.vars == old(current.vars)
    {
      transfer := Alt.Complete(h, View()).1;
      match h.kind
      case ChanIn(c, dest) => CompleteInput(c, dest);
      case Interrupt(l, into) => CompleteInterrupt(l, into);
      case _ =>
    }

    ghost function VariablesUpTo(n: nat): (r: seq<seq<int>>)
      requires n <= |procs|
      reads procs`vars
      ensures |r| == n && forall p :: 0 <= p < n ==> r[p] == procs[p].vars
    {
      if n == 0 then [] else VariablesUpTo(n - 1) + [procs[n - 1].vars]
    }

    ghost function Variables(): (r: seq<seq<int>>)
      reads procs`vars
      ensures |r| == |procs| && forall p :: 0 <= p < |r| ==> r[p] == procs[p].vars
    {
      VariablesUpTo(|procs|)
    }

    /** Walks back over the guards of the current process and notes the selected branch. */
    method SelectBranch(clock: seq<nat>) returns (partner: Process?)
      requires Valid() && Alt.Fits(current.guards, View()) && |clock| == |current.guards|
      requires current.index < |current.guards| && current.count < |current.guards|
      modifies chans`waiting, lines`waiting, timers, timers.pool`next, current`index
      ensures Valid() && Known(partner) && timers.pool == old(timers.pool) && current.index < |current.guards|
      ensures Alt.SameShape(old(View()), View())
      ensures Alt.DisableFrom(current.guards, current.id, clock, old(View()), old(current.index), old(current.count), old(current.index), None) ==
              Alt.Walk(View(), current.index, IdOf(partner))
    {
      var g := current.guards;
      Alt.DisableKeepsShape(g, current.id, clock, View(), current.index, current.count, current.index, None);
      var selected;
      selected, partner := DisableGuards(g, clock, current.index, current.count);
      current.index := selected;
    }

    /** Disables the ALT of the current process, moves the data of the selected
        branch and returns the partner. */
    method DisableAlt(clock: seq<nat>) returns (partner: Process?)
      requires Valid() && current.id < |procs| && Alt.Fits(current.guards, View()) && |clock| == |current.guards|
      requires current.index < |current.guards| && current.count < |current.guards|
      modifies chans`waiting, lines, timers, timers.pool`next, current`index, current`vars
      ensures Valid() && Known(partner) && timers.pool == old(timers.pool)
      ensures var d := Alt.DisableAlt(old(AltOf(current)), current.id, clock, old(View()));
              && View() == d.world && current.index == d.index && IdOf(partner) == d.partner
              && current.vars == Delivered(d.transfer, old(current.vars), old(Variables()))
      ensures var h := current.guards[current.index].kind;
              Moves(h, old(View()), old(current.vars), current.vars, old(Variables()))
    {
      DeliversSelected(AltOf(current), current.id, clock, View(), current.vars, Variables());
      partner := SelectBranch(clock);
      assert Variables() == old(Variables());
      var _ := CompleteBranch(current.guards[current.index]);
    }
  }

  /** The branch `h` moves what its channel offers, or what its interrupt channel has
      counted, in world `w` into its destination among the variables, and nothing else. */
  predicate Moves(h: Kind, w: World, vars: seq<int>, vars': seq<int>, all: seq<seq<int>>)
    requires Alt.GuardFits(Guard(h, true), w)
  {
    match h
    case ChanIn(c, dest) => Stores(vars, vars', Some(dest), Offered(w.cells[c].src, all))
    case Interrupt(l, into) => Stores(vars, vars', into, Some(w.lines[l].count))
    case _ => vars' == vars
  }

  /** What disable_alt delivers is what the selected branch had when it was entered. */
  lemma DeliversSelected(alt: Alternation, p: Pid, clock: seq<nat>, w: World, vars: seq<int>, all: seq<seq<int>>)
    requires Alt.Fits(alt.guards, w) && |clock| == |alt.guards| && alt.index < |alt.guards| && alt.count < |alt.guards|
    ensures var d := Alt.DisableAlt(alt, p, clock, w);
            Moves(alt.guards[d.index].kind, w, vars, Delivered(d.transfer, vars, all), all)
  {
    AltLaws.DisableKeepsData(alt.guards, p, clock, w, alt.index, alt.count, alt.index, None);
    Alt.DisableKeepsShape(alt.guards, p, clock, w, alt.index, alt.count, alt.index, None);
  }

  /** The value an address names, if it names a variable of a process. */
  predicate Names(src: Option<Address>, all: seq<seq<int>>, value: int) {
    src.Some? && src.value.proc < |all| && src.value.variable < |all[src.value.proc]| && all[src.value.proc][src.value.variable] == value
  }

  /** The value an outputter has left the address of. */
  function Offered(src: Option<Address>, all: seq<seq<int>>): (value: Option<int>)
    ensures value.Some? ==> Names(src, all, value.value)
    ensures value.None? ==> forall v :: !Names(src, all, v)
  {
    if src.Some? && src.value.proc < |all| && src.value.variable < |all[src.value.proc]|
    then Some(all[src.value.proc][src.value.variable]) else None
  }

  /** `vars'` is `vars` with `value` stored in variable `into`, where there are such
      a variable and such a value, and all other variables as they were. */
  predicate Stores(vars: seq<int>, vars': seq<int>, into: Option<nat>, value: Option<int>) {
    && |vars'| == |vars|
    && forall v :: 0 <= v < |vars| ==> vars'[v] == if into == Some(v) && value.Some? then value.value else vars[v]
  }

  /** `vars` after a transfer, given the variables of all processes. */
  function Delivered(transfer: Alt.Transfer, vars: seq<int>, all: seq<seq<int>>): seq<int> {
    match transfer
    case FromChannel(dest, Some(Address(q, x))) =>
      if dest < |vars| && q < |all| && x < |all[q]| then vars[dest := all[q][x]] else vars
    case FromLine(Some(v), count) => if v < |vars| then vars[v := count] else vars
    case _ => vars
  }

  ghost function AltOf(p: Process): Alternation
    reads p`guards, p`index, p`count, p`altPri
  {
    Alternation(p.guards, p.index, p.count, p.altPri)
  }
}
