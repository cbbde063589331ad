/** Everything that enabling and disabling an ALT change, and nothing else: the
    channels, the interrupt channels and the timeout queue afterwards, in terms of
    the guards passed. */
module AltEffects {
  import opened Types
  import opened TimeoutList
  import opened Alt
  import opened AltLaws
  import opened AltCleanup

  // ---------- enabling ----------

  /** The positions from `k` on that enabling passed without finding a guard ready end here. */
  function PassedEnd(r: Enabled): int {
    if r.ready then r.count else r.count + 1
  }

  predicate Inputs(g: seq<Guard>, first: nat, k: int, m: int, c: nat)
    requires first < |g| && m <= |g|
  {
    exists j :: 0 <= j && k <= j < m && InputAt(g, first, j, c)
  }

  predicate Outputs(g: seq<Guard>, first: nat, k: int, m: int, c: nat)
    requires first < |g| && m <= |g|
  {
    exists j :: 0 <= j && k <= j < m && OutputAt(g, first, j, c)
  }

  predicate Lines(g: seq<Guard>, first: nat, k: int, m: int, l: nat)
    requires first < |g| && m <= |g|
  {
    exists j :: 0 <= j && k <= j < m && LineAt(g, first, j, l)
  }

  lemma InputsSplit(g: seq<Guard>, first: nat, k: nat, m: int, c: nat)
    requires first < |g| && k < m <= |g|
    ensures Inputs(g, first, k, m, c) <==> InputAt(g, first, k, c) || Inputs(g, first, k + 1, m, c)
  {
  }

  lemma LinesSplit(g: seq<Guard>, first: nat, k: nat, m: int, l: nat)
    requires first < |g| && k < m <= |g|
    ensures Lines(g, first, k, m, l) <==> LineAt(g, first, k, l) || Lines(g, first, k + 1, m, l)
  {
  }

  /** A channel that no passed guard outputs on names the process if a passed guard
      inputs from it, and is otherwise as it was. */
  lemma {:induction false} EnableCell(g: seq<Guard>, p: Pid, clock: seq<nat>, w: World, first: nat, k: nat, partner: Option<Pid>, c: nat)
    requires Fits(g, w) && |clock| == |g| && first < |g| && k <= |g| && c < |w.cells|
    ensures var r := EnableFrom(g, p, clock, w, At(first, k, |g|), k, partner);
            && k <= PassedEnd(r) <= |g| && |r.world.cells| == |w.cells|
            && (!Outputs(g, first, k, PassedEnd(r), c) ==>
                  r.world.cells[c] == if Inputs(g, first, k, PassedEnd(r), c) then w.cells[c].(waiting := Some(p)) else w.cells[c])
    decreases |g| - k
  {
    var i := At(first, k, |g|);
    if k < |g| {
      Turn(first, k, |g|);
      if !g[i].active {
        EnableCell(g, p, clock, w, first, k + 1, partner, c);
        var r := EnableFrom(g, p, clock, w, At(first, k + 1, |g|), k + 1, partner);
        InputsSplit(g, first, k, PassedEnd(r), c);
      } else {
        var a := EnableGuard(w, p, g[i], clock[k], partner);
        if !a.ready {
          EnableCell(g, p, clock, a.world, first, k + 1, a.partner, c);
          var r := EnableFrom(g, p, clock, a.world, At(first, k + 1, |g|), k + 1, a.partner);
          InputsSplit(g, first, k, PassedEnd(r), c);
          assert OutputAt(g, first, k, c) ==> Outputs(g, first, k, PassedEnd(r), c);
          assert Outputs(g, first, k + 1, PassedEnd(r), c) ==> Outputs(g, first, k, PassedEnd(r), c);
        }
      }
    }
  }

  /** An interrupt channel of a passed guard names the process; its count and all others are as they were. */
  lemma {:induction false} EnableLine(g: seq<Guard>, p: Pid, clock: seq<nat>, w: World, first: nat, k: nat, partner: Option<Pid>, l: nat)
    requires Fits(g, w) && |clock| == |g| && first < |g| && k <= |g| && l < |w.lines|
    ensures var r := EnableFrom(g, p, clock, w, At(first, k, |g|), k, partner);
            && k <= PassedEnd(r) <= |g| && |r.world.lines| == |w.lines|
            && r.world.lines[l] == if Lines(g, first, k, PassedEnd(r), l) then w.lines[l].(waiting := Some(p)) else w.lines[l]
    decreases |g| - k
  {
    var i := At(first, k, |g|);
    if k < |g| {
      Turn(first, k, |g|);
      if !g[i].active {
        EnableLine(g, p, clock, w, first, k + 1, partner, l);
        var r := EnableFrom(g, p, clock, w, At(first, k + 1, |g|), k + 1, partner);
        LinesSplit(g, first, k, PassedEnd(r), l);
      } else {
        var a := EnableGuard(w, p, g[i], clock[k], partner);
        if !a.ready {
          EnableLine(g, p, clock, a.world, first, k + 1, a.partner, l);
          var r := EnableFrom(g, p, clock, a.world, At(first, k + 1, |g|), k + 1, a.partner);
          LinesSplit(g, first, k, PassedEnd(r), l);
        }
      }
    }
  }

  /** `q'` is `q` with the deadlines of the active timeout guards in positions k..m-1
      queued for the process, and the timeouts of others as they were. */
  ghost predicate Queued(q: seq<Entry>, q': seq<Entry>, p: Pid, g: seq<Guard>, first: nat, k: nat, m: nat, t: nat)
    requires first < |g| && k <= |g| && m <= |g|
  {
    && Sorted(q') && Others(q', p) == Others(q, p)
    && Copies(q', Entry(t, p)) + Deadlines(g, first, k - 1, t) == Copies(q, Entry(t, p)) + Deadlines(g, first, m - 1, t)
  }

  lemma QueuedDeadline(q: seq<Entry>, p: Pid, g: seq<Guard>, first: nat, k: nat, time: nat, t: nat)
    requires first < |g| && k < |g| && Sorted(q) && g[At(first, k, |g|)] == Guard(Timeout(time), true)
    ensures Queued(q, Insert(q, Entry(time, p)), p, g, first, k, k + 1, t)
  {
    InsertIsStable(q, Entry(time, p));
    InsertCopies(q, Entry(time, p), Entry(t, p));
    InsertKeepsOthers(q, Entry(time, p));
  }

  lemma QueuedGuard(w: World, p: Pid, g: seq<Guard>, first: nat, k: nat, now: nat, partner: Option<Pid>, t: nat)
    requires Fits(g, w) && first < |g| && k < |g| && Sorted(w.timers)
    requires var h := g[At(first, k, |g|)]; h.active && !EnableGuard(w, p, h, now, partner).ready
    ensures Queued(w.timers, EnableGuard(w, p, g[At(first, k, |g|)], now, partner).world.timers, p, g, first, k, k + 1, t)
  {
    var h := g[At(first, k, |g|)];
    var w' := EnableGuard(w, p, h, now, partner).world;
    if h.kind.Timeout? {
      assert w'.timers == Insert(w.timers, Entry(h.kind.time, p));
      QueuedDeadline(w.timers, p, g, first, k, h.kind.time, t);
    } else {
      assert w'.timers == w.timers;
    }
  }

  lemma QueuedChain(q: seq<Entry>, q1: seq<Entry>, q2: seq<Entry>, p: Pid, g: seq<Guard>, first: nat, k: nat, m: nat, t: nat)
    requires first < |g| && k + 1 <= |g| && m <= |g|
    requires Queued(q, q1, p, g, first, k, k + 1, t) && Queued(q1, q2, p, g, first, k + 1, m, t)
    ensures Queued(q, q2, p, g, first, k, m, t)
  {
  }

  lemma QueuedNothing(q: seq<Entry>, p: Pid, g: seq<Guard>, first: nat, k: nat, t: nat)
    requires first < |g| && k < |g| && Sorted(q) && !g[At(first, k, |g|)].active
    ensures Queued(q, q, p, g, first, k, k + 1, t)
  {
  }

  /** One round of the enabling loop. */
  lemma EnableRound(g: seq<Guard>, p: Pid, clock: seq<nat>, w: World, first: nat, k: nat, partner: Option<Pid>)
    requires Fits(g, w) && |clock| == |g| && first < |g| && k < |g|
    ensures var i, r := At(first, k, |g|), EnableFrom(g, p, clock, w, At(first, k, |g|), k, partner);
            if !g[i].active then r == EnableFrom(g, p, clock, w, At(first, k + 1, |g|), k + 1, partner)
            else
              var a := EnableGuard(w, p, g[i], clock[k], partner);
              && Fits(g, a.world) && SameShape(w, a.world)
              && r == if a.ready then Enabled(a.world, true, a.partner, i, k)
                      else EnableFrom(g, p, clock, a.world, At(first, k + 1, |g|), k + 1, a.partner)
  {
    Turn(first, k, |g|);
  }

  /** Each passed timeout guard has queued its deadline once more for the process. */
  lemma {:induction false} EnableTimers(g: seq<Guard>, p: Pid, clock: seq<nat>, w: World, first: nat, k: nat, partner: Option<Pid>, t: nat)
    requires Fits(g, w) && |clock| == |g| && first < |g| && k <= |g| && Sorted(w.timers)
    ensures var r := EnableFrom(g, p, clock, w, At(first, k, |g|), k, partner);
            k <= PassedEnd(r) <= |g| && Queued(w.timers, r.world.timers, p, g, first, k, PassedEnd(r), t)
    decreases |g| - k
  {
    if k < |g| {
      EnableRound(g, p, clock, w, first, k, partner);
      var r := EnableFrom(g, p, clock, w, At(first, k, |g|), k, partner);
      if !g[At(first, k, |g|)].active {
        EnableTimers(g, p, clock, w, first, k + 1, partner, t);
        QueuedNothing(w.timers, p, g, first, k, t);
        QueuedChain(w.timers, w.timers, r.world.timers, p, g, first, k, PassedEnd(r), t);
      } else {
        var a := EnableGuard(w, p, g[At(first, k, |g|)], clock[k], partner);
        if a.ready {
          assert a.world.timers == w.timers;
        } else {
          QueuedGuard(w, p, g, first, k, clock[k], partner, t);
          EnableTimers(g, p, clock, a.world, first, k + 1, a.partner, t);
          QueuedChain(w.timers, a.world.timers, r.world.timers, p, g, first, k, PassedEnd(r), t);
        }
      }
    }
  }

  /** A passed output guard leaves the process and the address of its value in its channel. */
  lemma {:induction false} EnableOutputCell(g: seq<Guard>, p: Pid, clock: seq<nat>, w: World, first: nat, k: nat, partner: Option<Pid>,
                                            j: nat, c: nat, x: nat)
    requires Fits(g, w) && OutputAlone(g) && |clock| == |g| && first < |g| && k <= j < |g| && c < |w.cells|
    requires g[At(first, j, |g|)] == Guard(ChanOut(c, x), true)
    ensures var r := EnableFrom(g, p, clock, w, At(first, k, |g|), k, partner);
            !r.ready && PassedEnd(r) == |g| && r.partner == w.cells[c].waiting
            && |r.world.cells| == |w.cells| && r.world.cells[c] == Cell(Some(p), Some(Address(p, x)))
    decreases |g| - k
  {
    EnableRound(g, p, clock, w, first, k, partner);
    if k == j {
      var a := EnableGuard(w, p, g[At(first, k, |g|)], clock[k], partner);
      NoneActive(g, p, clock, a.world, first, k + 1, a.partner);
    } else {
      Different(first, k, j, |g|);
      EnableOutputCell(g, p, clock, w, first, k + 1, partner, j, c, x);
    }
  }

  lemma Different(first: nat, k: nat, j: nat, n: nat)
    requires first < n && k < j < n
    ensures At(first, k, n) != At(first, j, n)
  {
  }

  /** Behind the output guard there is nothing to enable. */
  lemma {:induction false} NoneActive(g: seq<Guard>, p: Pid, clock: seq<nat>, w: World, first: nat, k: nat, partner: Option<Pid>)
    requires Fits(g, w) && OutputAlone(g) && |clock| == |g| && first < |g| && 1 <= k <= |g|
    requires exists j :: 0 <= j < k && g[At(first, j, |g|)].active && g[At(first, j, |g|)].kind.ChanOut?
    ensures EnableFrom(g, p, clock, w, At(first, k, |g|), k, partner) ==
            Enabled(w, false, partner, At(first, |g| - 1, |g|), |g| - 1)
    decreases |g| - k
  {
    if k == |g| {
      Turn(first, |g| - 1, |g|);
    } else {
      var j :| 0 <= j < k && g[At(first, j, |g|)].active && g[At(first, j, |g|)].kind.ChanOut?;
      Different(first, j, k, |g|);
      EnableRound(g, p, clock, w, first, k, partner);
      NoneActive(g, p, clock, w, first, k + 1, partner);
    }
  }

  /** The partner enabling returns: the outputter waiting in the ready input found,
      and for anything else but an output the one it was given. */
  lemma {:induction false} EnablePartner(g: seq<Guard>, p: Pid, clock: seq<nat>, w: World, first: nat, k: nat, partner: Option<Pid>)
    requires Fits(g, w) && |clock| == |g| && first < |g| && k <= |g|
    requires forall i :: 0 <= i < |g| && g[i].active ==> !g[i].kind.ChanOut?
    ensures var r := EnableFrom(g, p, clock, w, At(first, k, |g|), k, partner);
            && r.index < |g|
            && (r.ready && g[r.index].kind.ChanIn? ==>
                  w.cells[g[r.index].kind.chan].waiting.Some? && w.cells[g[r.index].kind.chan].waiting != Some(p))
            && r.partner == if r.ready && g[r.index].kind.ChanIn? then w.cells[g[r.index].kind.chan].waiting else partner
    decreases |g| - k
  {
    EnableKeepsShape(g, p, clock, w, first, k, partner);
    if k < |g| {
      EnableRound(g, p, clock, w, first, k, partner);
      var i := At(first, k, |g|);
      if !g[i].active {
        EnablePartner(g, p, clock, w, first, k + 1, partner);
      } else {
        var a := EnableGuard(w, p, g[i], clock[k], partner);
        if !a.ready {
          EnablePartner(g, p, clock, a.world, first, k + 1, a.partner);
        }
      }
    }
  }

  /** Enabling an ALT, in full: `m` guards, from the first on, are passed. Their
      channels, interrupt channels and deadlines name the process, the output guard
      leaves the address of its value as well, and everything else is as it was. */
  lemma EnableEffects(alt: Alternation, p: Pid, clock: seq<nat>, w: World)
    requires Fits(alt.guards, w) && OutputAlone(alt.guards) && |clock| == |alt.guards| && Sorted(w.timers)
    requires alt.pri || alt.index < |alt.guards|
    ensures var g, first, e := alt.guards, FirstGuard(alt), EnableAlt(alt, p, clock, w);
            var m := PassedEnd(e);
            && 0 <= m <= |g| && (!e.ready ==> m == |g|) && SameShape(w, e.world)
            && (forall c :: 0 <= c < |w.cells| && !Outputs(g, first, 0, m, c) ==>
                  e.world.cells[c] == if Inputs(g, first, 0, m, c) then w.cells[c].(waiting := Some(p)) else w.cells[c])
            && (forall j, c, x :: 0 <= j < |g| && 0 <= c < |w.cells| && g[At(first, j, |g|)] == Guard(ChanOut(c, x), true) ==>
                  e.world.cells[c] == Cell(Some(p), Some(Address(p, x))))
            && (forall l :: 0 <= l < |w.lines| ==>
                  e.world.lines[l] == if Lines(g, first, 0, m, l) then w.lines[l].(waiting := Some(p)) else w.lines[l])
            && Others(e.world.timers, p) == Others(w.timers, p) && Sorted(e.world.timers)
            && (forall t: nat :: Copies(e.world.timers, Entry(t, p)) == Copies(w.timers, Entry(t, p)) + Deadlines(g, first, m - 1, t))
  {
    var g, first, e := alt.guards, FirstGuard(alt), EnableAlt(alt, p, clock, w);
    assert At(first, 0, |g|) == first;
    EnableKeepsShape(g, p, clock, w, first, 0, None);
    forall c | 0 <= c < |w.cells| && !Outputs(g, first, 0, PassedEnd(e), c)
      ensures e.world.cells[c] == if Inputs(g, first, 0, PassedEnd(e), c) then w.cells[c].(waiting := Some(p)) else w.cells[c]
    {
      EnableCell(g, p, clock, w, first, 0, None, c);
    }
    forall j: nat, c: nat, x: nat | j < |g| && c < |w.cells| && g[At(first, j, |g|)] == Guard(ChanOut(c, x), true)
      ensures e.world.cells[c] == Cell(Some(p), Some(Address(p, x)))
    {
      EnableOutputCell(g, p, clock, w, first, 0, None, j, c, x);
    }
    forall l | 0 <= l < |w.lines|
      ensures e.world.lines[l] == if Lines(g, first, 0, PassedEnd(e), l) then w.lines[l].(waiting := Some(p)) else w.lines[l]
    {
      EnableLine(g, p, clock, w, first, 0, None, l);
    }
    forall t: nat
      ensures Copies(e.world.timers, Entry(t, p)) == Copies(w.timers, Entry(t, p)) + Deadlines(g, first, PassedEnd(e) - 1, t)
    {
      EnableTimers(g, p, clock, w, first, 0, None, t);
    }
    EnableTimers(g, p, clock, w, first, 0, None, 0);
  }

  // ---------- disabling ----------

  lemma {:induction false} DisableCell(g: seq<Guard>, p: Pid, clock: seq<nat>, w: World, first: nat, i: nat, k: int,
                                       index: nat, partner: Option<Pid>, c: nat)
    requires Fits(g, w) && |clock| == |g| && first < |g| && i < |g| && -1 <= k < |g| && c < |w.cells|
    requires k >= 0 ==> i == At(first, k, |g|)
    ensures var w' := DisableFrom(g, p, clock, w, i, k, index, partner).world;
            && |w'.cells| == |w.cells|
            && w'.cells[c] == if w.cells[c].waiting == Some(p) && Inputs(g, first, 0, k + 1, c) then w.cells[c].(waiting := None)
                              else w.cells[c]
    decreases k + 1
  {
    if k >= 0 {
      if k > 0 { Turn(first, k - 1, |g|); }
      assert Inputs(g, first, 0, k + 1, c) <==> InputAt(g, first, k, c) || Inputs(g, first, 0, k, c);
      if !g[i].active {
        DisableCell(g, p, clock, w, first, Minus1Mod(i, |g|), k - 1, index, partner, c);
      } else {
        var a := DisableGuard(w, p, g[i], clock[k], partner);
        DisableCell(g, p, clock, a.world, first, Minus1Mod(i, |g|), k - 1, if a.ready then i else index, a.partner, c);
      }
    }
  }

  lemma {:induction false} DisableLine(g: seq<Guard>, p: Pid, clock: seq<nat>, w: World, first: nat, i: nat, k: int,
                                       index: nat, partner: Option<Pid>, l: nat)
    requires Fits(g, w) && |clock| == |g| && first < |g| && i < |g| && -1 <= k < |g| && l < |w.lines|
    requires k >= 0 ==> i == At(first, k, |g|)
    ensures var w' := DisableFrom(g, p, clock, w, i, k, index, partner).world;
            && |w'.lines| == |w.lines|
            && w'.lines[l] == if Lines(g, first, 0, k + 1, l) then w.lines[l].(waiting := None) else w.lines[l]
    decreases k + 1
  {
    if k >= 0 {
      if k > 0 { Turn(first, k - 1, |g|); }
      assert Lines(g, first, 0, k + 1, l) <==> LineAt(g, first, k, l) || Lines(g, first, 0, k, l);
      if !g[i].active {
        DisableLine(g, p, clock, w, first, Minus1Mod(i, |g|), k - 1, index, partner, l);
      } else {
        var a := DisableGuard(w, p, g[i], clock[k], partner);
        DisableLine(g, p, clock, a.world, first, Minus1Mod(i, |g|), k - 1, if a.ready then i else index, a.partner, l);
      }
    }
  }

  /** `q'` is `q` with as many copies of the process's deadline `t` taken out as active
      timeout guards in positions 0..k have it, as far as there are any. */
  ghost predicate Dequeued(q: seq<Entry>, q': seq<Entry>, p: Pid, g: seq<Guard>, first: nat, k: int, t: nat)
    requires first < |g| && k < |g|
  {
    && Sorted(q') && Others(q', p) == Others(q, p)
    && var n := Copies(q, Entry(t, p)) - Deadlines(g, first, k, t);
       Copies(q', Entry(t, p)) == if n < 0 then 0 else n
  }

  lemma DequeuedTimeout(q: seq<Entry>, q': seq<Entry>, p: Pid, g: seq<Guard>, first: nat, k: nat, time: nat, t: nat)
    requires first < |g| && k < |g| && Sorted(q) && g[At(first, k, |g|)] == Guard(Timeout(time), true)
    requires Dequeued(Remove(q, time, p), q', p, g, first, k - 1, t)
    ensures Dequeued(q, q', p, g, first, k, t)
  {
    RemoveCopies(q, Entry(time, p), Entry(t, p));
    RemoveKeepsOthers(q, time, p);
  }

  lemma DequeuedGuard(w: World, p: Pid, g: seq<Guard>, first: nat, k: nat, now: nat, partner: Option<Pid>, q: seq<Entry>, t: nat)
    requires Fits(g, w) && first < |g| && k < |g| && Sorted(w.timers) && g[At(first, k, |g|)].active
    requires Dequeued(DisableGuard(w, p, g[At(first, k, |g|)], now, partner).world.timers, q, p, g, first, k - 1, t)
    ensures Dequeued(w.timers, q, p, g, first, k, t)
  {
    var h := g[At(first, k, |g|)];
    match h.kind
    case Timeout(time) => DequeuedTimeout(w.timers, q, p, g, first, k, time, t);
    case _ =>
  }

  lemma DisableSorted(w: World, p: Pid, h: Guard, now: nat, partner: Option<Pid>)
    requires GuardFits(h, w) && Sorted(w.timers)
    ensures Sorted(DisableGuard(w, p, h, now, partner).world.timers)
  {
    match h.kind
    case Timeout(time) => RemoveFirstMatch(w.timers, time, p);
    case _ =>
  }

  lemma DequeuedNothing(q: seq<Entry>, q': seq<Entry>, p: Pid, g: seq<Guard>, first: nat, k: nat, t: nat)
    requires first < |g| && k < |g| && !g[At(first, k, |g|)].active && Dequeued(q, q', p, g, first, k - 1, t)
    ensures Dequeued(q, q', p, g, first, k, t)
  {
  }

  /** One round of the disabling loop. */
  lemma DisableRound(g: seq<Guard>, p: Pid, clock: seq<nat>, w: World, first: nat, i: nat, k: nat, index: nat, partner: Option<Pid>)
    returns (i': nat, w': World, index': nat, partner': Option<Pid>)
    requires Fits(g, w) && |clock| == |g| && first < |g| && k < |g| && i == At(first, k, |g|) && Sorted(w.timers)
    ensures i' < |g| && (k > 0 ==> i' == At(first, k - 1, |g|)) && Fits(g, w') && Sorted(w'.timers)
    ensures w' == if g[i].active then DisableGuard(w, p, g[i], clock[k], partner).world else w
    ensures DisableFrom(g, p, clock, w, i, k, index, partner) == DisableFrom(g, p, clock, w', i', k - 1, index', partner')
  {
    if k > 0 { Turn(first, k - 1, |g|); }
    i', w', index', partner' := Minus1Mod(i, |g|), w, index, partner;
    if g[i].active {
      var a := DisableGuard(w, p, g[i], clock[k], partner);
      w', index', partner' := a.world, if a.ready then i else index, a.partner;
      DisableSorted(w, p, g[i], clock[k], partner);
    }
  }

  lemma {:induction false} DisableTimers(g: seq<Guard>, p: Pid, clock: seq<nat>, w: World, first: nat, i: nat, k: int,
                                         index: nat, partner: Option<Pid>, t: nat)
    requires Fits(g, w) && |clock| == |g| && first < |g| && i < |g| && -1 <= k < |g| && Sorted(w.timers)
    requires k >= 0 ==> i == At(first, k, |g|)
    ensures Dequeued(w.timers, DisableFrom(g, p, clock, w, i, k, index, partner).world.timers, p, g, first, k, t)
    decreases k + 1
  {
    if k >= 0 {
      var i', w', index', partner' := DisableRound(g, p, clock, w, first, i, k, index, partner);
      DisableTimers(g, p, clock, w', first, i', k - 1, index', partner', t);
      var q := DisableFrom(g, p, clock, w', i', k - 1, index', partner').world.timers;
      if g[i].active {
        DequeuedGuard(w, p, g, first, k, clock[k], partner, q, t);
      } else {
        DequeuedNothing(w.timers, q, p, g, first, k, t);
      }
    }
  }

  /** Disabling an ALT, in full: the process leaves the channels, interrupt channels
      and deadlines of the guards of the enabled prefix, the channel of a selected
      input is emptied, the count of a selected interrupt channel is cleared, and
      everything else is as it was. */
  lemma DisableEffects(alt: Alternation, first: nat, p: Pid, clock: seq<nat>, w: World)
    requires Fits(alt.guards, w) && |clock| == |alt.guards| && LeftBy(alt, first) && Sorted(w.timers)
    ensures var g, m, d := alt.guards, alt.count + 1, DisableAlt(alt, p, clock, w);
            var h := g[d.index].kind;
            && SameShape(w, d.world)
            && (forall c :: 0 <= c < |w.cells| ==>
                  d.world.cells[c] == if (h.ChanIn? && h.chan == c) || (w.cells[c].waiting == Some(p) && Inputs(g, first, 0, m, c))
                                      then w.cells[c].(waiting := None) else w.cells[c])
            && (forall l :: 0 <= l < |w.lines| ==>
                  d.world.lines[l] == Line(if Lines(g, first, 0, m, l) then None else w.lines[l].waiting,
                                           if h.Interrupt? && h.line == l then 0 else w.lines[l].count))
            && Others(d.world.timers, p) == Others(w.timers, p) && Sorted(d.world.timers)
            && (forall t: nat :: var n := Copies(w.timers, Entry(t, p)) - Deadlines(g, first, alt.count, t);
                  Copies(d.world.timers, Entry(t, p)) == if n < 0 then 0 else n)
  {
    var g, d := alt.guards, DisableAlt(alt, p, clock, w);
    var r := DisableFrom(g, p, clock, w, alt.index, alt.count, alt.index, None);
    DisableKeepsShape(g, p, clock, w, alt.index, alt.count, alt.index, None);
    forall c | 0 <= c < |w.cells|
      ensures r.world.cells[c] == if w.cells[c].waiting == Some(p) && Inputs(g, first, 0, alt.count + 1, c)
                                  then w.cells[c].(waiting := None) else w.cells[c]
    {
      DisableCell(g, p, clock, w, first, alt.index, alt.count, alt.index, None, c);
    }
    forall l | 0 <= l < |w.lines|
      ensures r.world.lines[l] == if Lines(g, first, 0, alt.count + 1, l) then w.lines[l].(waiting := None) else w.lines[l]
    {
      DisableLine(g, p, clock, w, first, alt.index, alt.count, alt.index, None, l);
    }
    assert d.world.timers == r.world.timers;
    forall t: nat
      ensures var n := Copies(w.timers, Entry(t, p)) - Deadlines(g, first, alt.count, t);
              Copies(d.world.timers, Entry(t, p)) == if n < 0 then 0 else n
    {
      DisableTimers(g, p, clock, w, first, alt.index, alt.count, alt.index, None, t);
    }
    DisableTimers(g, p, clock, w, first, alt.index, alt.count, alt.index, None, 0);
  }

  // ---------- the order of enabling ----------

  /** The guard in position `j` is `j` steps on from the first, modulo their number. */
  lemma AtIsMod(first: nat, j: nat, n: nat)
    requires first < n && j < n
    ensures At(first, j, n) == (first + j) % n
  {
    Remainder(first + j, n);
  }

  /** ALT PRI stops at the ready guard of the lowest index. */
  lemma PriStopsAtLowest(alt: Alternation, p: Pid, clock: seq<nat>, w: World)
    requires alt.pri && Fits(alt.guards, w) && OutputAlone(alt.guards) && |clock| == |alt.guards|
    ensures var e := EnableAlt(alt, p, clock, w);
            && 0 <= e.index == e.count < |alt.guards|
            && (e.ready ==> Ready(w, p, alt.guards[e.index], clock[e.index]))
            && (forall i :: 0 <= i < |alt.guards| && (i < e.index || !e.ready) ==> !Ready(w, p, alt.guards[i], clock[i]))
  {
    EnableStopsAtFirstReady(alt, p, clock, w);
    var e := EnableAlt(alt, p, clock, w);
    forall i | 0 <= i < |alt.guards| && (i < e.index || !e.ready) ensures !Ready(w, p, alt.guards[i], clock[i]) {
      assert At(0, i, |alt.guards|) == i;
      assert !ReadyAt(w, p, alt.guards, clock, 0, i);
    }
  }

  /** Fair ALT starts behind the guard selected last and stops at the first ready guard from there. */
  lemma FairStopsBehindLast(alt: Alternation, p: Pid, clock: seq<nat>, w: World)
    requires !alt.pri && alt.index < |alt.guards| && Fits(alt.guards, w) && OutputAlone(alt.guards) && |clock| == |alt.guards|
    ensures var n, e := |alt.guards|, EnableAlt(alt, p, clock, w);
            && 0 <= e.count < n && e.index == ((alt.index + 1) % n + e.count) % n
            && (e.ready ==> Ready(w, p, alt.guards[e.index], clock[e.count]))
            && (forall j :: 0 <= j < n && (j < e.count || !e.ready) ==>
                  !Ready(w, p, alt.guards[((alt.index + 1) % n + j) % n], clock[j]))
  {
    var n, e, first := |alt.guards|, EnableAlt(alt, p, clock, w), FirstGuard(alt);
    EnableStopsAtFirstReady(alt, p, clock, w);
    ModSteps(alt.index, n);
    AtIsMod(first, e.count, n);
    forall j | 0 <= j < n && (j < e.count || !e.ready) ensures !Ready(w, p, alt.guards[((alt.index + 1) % n + j) % n], clock[j]) {
      AtIsMod(first, j, n);
      assert !ReadyAt(w, p, alt.guards, clock, first, j);
    }
  }
}
