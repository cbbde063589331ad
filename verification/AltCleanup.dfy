/** Disabling an ALT undoes enabling it: wherever enabling stopped, and whatever
    partners, interrupts and timeouts did in between, nothing refers to the
    process afterwards. */
module AltCleanup {
  import opened Types
  import opened TimeoutList
  import opened Alt
  import opened AltLaws

  predicate InputAt(g: seq<Guard>, first: nat, j: nat, c: nat)
    requires first < |g| && j < |g|
  {
    var h := g[At(first, j, |g|)];
    h.active && h.kind.ChanIn? && h.kind.chan == c
  }

  predicate OutputAt(g: seq<Guard>, first: nat, j: nat, c: nat)
    requires first < |g| && j < |g|
  {
    var h := g[At(first, j, |g|)];
    h.active && h.kind.ChanOut? && h.kind.chan == c
  }

  predicate LineAt(g: seq<Guard>, first: nat, j: nat, l: nat)
    requires first < |g| && j < |g|
  {
    var h := g[At(first, j, |g|)];
    h.active && h.kind.Interrupt? && h.kind.line == l
  }

  /** The number of active guards in positions 0..k with deadline `time`. */
  function Deadlines(g: seq<Guard>, first: nat, k: int, time: nat): nat
    requires first < |g| && k < |g|
    decreases k + 1
  {
    if k < 0 then 0
    else Deadlines(g, first, k - 1, time) + (if g[At(first, k, |g|)] == Guard(Timeout(time), true) then 1 else 0)
  }

  predicate CellFootprint(w: World, p: Pid, g: seq<Guard>, first: nat, k: int, outputs: bool)
    requires first < |g| && k < |g|
  {
    forall c :: 0 <= c < |w.cells| && w.cells[c].waiting == Some(p) ==>
      exists j :: 0 <= j <= k && (InputAt(g, first, j, c) || (outputs && OutputAt(g, first, j, c)))
  }

  predicate LineFootprint(w: World, p: Pid, g: seq<Guard>, first: nat, k: int)
    requires first < |g| && k < |g|
  {
    forall l :: 0 <= l < |w.lines| && w.lines[l].waiting == Some(p) ==> exists j :: 0 <= j <= k && LineAt(g, first, j, l)
  }

  ghost predicate TimerFootprint(w: World, p: Pid, g: seq<Guard>, first: nat, k: int)
    requires first < |g| && k < |g|
  {
    Sorted(w.timers) && forall t: nat :: Copies(w.timers, Entry(t, p)) <= Deadlines(g, first, k, t)
  }

  /** Everything that refers to `p` stems from a guard in positions 0..k. */
  ghost predicate Footprint(w: World, p: Pid, g: seq<Guard>, first: nat, k: int, outputs: bool)
    requires first < |g| && k < |g|
  {
    CellFootprint(w, p, g, first, k, outputs) && LineFootprint(w, p, g, first, k) && TimerFootprint(w, p, g, first, k)
  }

  /** Nothing refers to `p`. */
  predicate Clean(w: World, p: Pid) {
    && Sorted(w.timers)
    && (forall c :: 0 <= c < |w.cells| ==> w.cells[c].waiting != Some(p))
    && (forall l :: 0 <= l < |w.lines| ==> w.lines[l].waiting != Some(p))
    && (forall e :: e in w.timers ==> e.proc != p)
  }

  lemma NoFootprint(w: World, p: Pid, g: seq<Guard>, first: nat, outputs: bool)
    requires first < |g|
    ensures Footprint(w, p, g, first, -1, outputs) <==> Clean(w, p)
  {
  }

  lemma EnableGuardCells(w: World, p: Pid, g: seq<Guard>, first: nat, k: nat, w': World, now: nat, partner: Option<Pid>)
    requires Fits(g, w) && first < |g| && k < |g| && g[At(first, k, |g|)].active
    requires w' == EnableGuard(w, p, g[At(first, k, |g|)], now, partner).world
    requires CellFootprint(w, p, g, first, k - 1, true) && LineFootprint(w, p, g, first, k - 1)
    ensures CellFootprint(w', p, g, first, k, true) && LineFootprint(w', p, g, first, k)
  {
    forall c | 0 <= c < |w'.cells| && w'.cells[c].waiting == Some(p)
      ensures exists j :: 0 <= j <= k && (InputAt(g, first, j, c) || OutputAt(g, first, j, c))
    {
      if w.cells[c].waiting != Some(p) {
        assert InputAt(g, first, k, c) || OutputAt(g, first, k, c);
      }
    }
    forall l | 0 <= l < |w'.lines| && w'.lines[l].waiting == Some(p)
      ensures exists j :: 0 <= j <= k && LineAt(g, first, j, l)
    {
      if w.lines[l].waiting != Some(p) {
        assert LineAt(g, first, k, l);
      }
    }
  }

  lemma InsertDeadline(q: seq<Entry>, p: Pid, g: seq<Guard>, first: nat, k: nat, time: nat, t: nat)
    requires first < |g| && k < |g| && g[At(first, k, |g|)] == Guard(Timeout(time), true)
    requires Copies(q, Entry(t, p)) <= Deadlines(g, first, k - 1, t)
    ensures Copies(Insert(q, Entry(time, p)), Entry(t, p)) <= Deadlines(g, first, k, t)
  {
    InsertCopies(q, Entry(time, p), Entry(t, p));
  }

  lemma EnableGuardTimers(w: World, p: Pid, g: seq<Guard>, first: nat, k: nat, w': World, now: nat, partner: Option<Pid>)
    requires Fits(g, w) && first < |g| && k < |g| && g[At(first, k, |g|)].active
    requires w' == EnableGuard(w, p, g[At(first, k, |g|)], now, partner).world
    requires TimerFootprint(w, p, g, first, k - 1)
    ensures TimerFootprint(w', p, g, first, k)
  {
    var h := g[At(first, k, |g|)];
    if h.kind.Timeout? && now < h.kind.time {
      assert w'.timers == Insert(w.timers, Entry(h.kind.time, p));
      InsertIsStable(w.timers, Entry(h.kind.time, p));
      forall t: nat ensures Copies(w'.timers, Entry(t, p)) <= Deadlines(g, first, k, t) {
        InsertDeadline(w.timers, p, g, first, k, h.kind.time, t);
      }
    } else {
      assert w'.timers == w.timers;
    }
  }

  lemma WiderFootprint(w: World, p: Pid, g: seq<Guard>, first: nat, k: nat, outputs: bool)
    requires first < |g| && k < |g| && Footprint(w, p, g, first, k - 1, outputs)
    ensures Footprint(w, p, g, first, k, outputs)
  {
  }

  /** Enabling leaves the process only in the guards it visited. */
  lemma {:induction false} EnableFootprint(g: seq<Guard>, p: Pid, clock: seq<nat>, w: World, first: nat, k: nat, partner: Option<Pid>)
    requires Fits(g, w) && |clock| == |g| && first < |g| && k <= |g|
    requires Footprint(w, p, g, first, k - 1, true)
    ensures var r := EnableFrom(g, p, clock, w, At(first, k, |g|), k, partner);
            r.count < |g| && Footprint(r.world, p, g, first, r.count, true)
    decreases |g| - k
  {
    if k < |g| {
      var i := At(first, k, |g|);
      Turn(first, k, |g|);
      if !g[i].active {
        WiderFootprint(w, p, g, first, k, true);
        EnableFootprint(g, p, clock, w, first, k + 1, partner);
      } else {
        var a := EnableGuard(w, p, g[i], clock[k], partner);
        EnableGuardCells(w, p, g, first, k, a.world, clock[k], partner);
        EnableGuardTimers(w, p, g, first, k, a.world, clock[k], partner);
        assert SameShape(w, a.world);
        if !a.ready {
          EnableFootprint(g, p, clock, a.world, first, k + 1, a.partner);
        }
      }
    }
  }

  lemma DisableGuardCells(w: World, p: Pid, g: seq<Guard>, first: nat, k: nat, w': World, now: nat, partner: Option<Pid>)
    requires Fits(g, w) && first < |g| && k < |g| && g[At(first, k, |g|)].active
    requires w' == DisableGuard(w, p, g[At(first, k, |g|)], now, partner).world
    requires CellFootprint(w, p, g, first, k, false)
    ensures CellFootprint(w', p, g, first, k - 1, false)
  {
  }

  lemma DisableGuardLines(w: World, p: Pid, g: seq<Guard>, first: nat, k: nat, w': World, now: nat, partner: Option<Pid>)
    requires Fits(g, w) && first < |g| && k < |g| && g[At(first, k, |g|)].active
    requires w' == DisableGuard(w, p, g[At(first, k, |g|)], now, partner).world
    requires LineFootprint(w, p, g, first, k)
    ensures LineFootprint(w', p, g, first, k - 1)
  {
  }

  lemma RemoveDeadline(q: seq<Entry>, p: Pid, g: seq<Guard>, first: nat, k: nat, time: nat, t: nat)
    requires Sorted(q) && first < |g| && k < |g| && g[At(first, k, |g|)] == Guard(Timeout(time), true)
    requires Copies(q, Entry(t, p)) <= Deadlines(g, first, k, t)
    ensures Copies(Remove(q, time, p), Entry(t, p)) <= Deadlines(g, first, k - 1, t)
  {
    RemoveCopies(q, Entry(time, p), Entry(t, p));
  }

  lemma DisableGuardTimers(w: World, p: Pid, g: seq<Guard>, first: nat, k: nat, w': World, now: nat, partner: Option<Pid>)
    requires Fits(g, w) && first < |g| && k < |g| && g[At(first, k, |g|)].active
    requires w' == DisableGuard(w, p, g[At(first, k, |g|)], now, partner).world
    requires TimerFootprint(w, p, g, first, k)
    ensures TimerFootprint(w', p, g, first, k - 1)
  {
    var h := g[At(first, k, |g|)];
    if h.kind.Timeout? {
      assert w'.timers == Remove(w.timers, h.kind.time, p);
      RemoveFirstMatch(w.timers, h.kind.time, p);
      forall t: nat ensures Copies(w'.timers, Entry(t, p)) <= Deadlines(g, first, k - 1, t) {
        RemoveDeadline(w.timers, p, g, first, k, h.kind.time, t);
      }
    } else {
      assert w'.timers == w.timers;
    }
  }

  lemma DisablePassFootprint(w: World, p: Pid, g: seq<Guard>, first: nat, k: nat, w': World, now: nat, partner: Option<Pid>)
    requires Fits(g, w) && first < |g| && k < |g| && Footprint(w, p, g, first, k, false)
    requires var h := g[At(first, k, |g|)]; w' == if h.active then DisableGuard(w, p, h, now, partner).world else w
    ensures SameShape(w, w') && Footprint(w', p, g, first, k - 1, false)
  {
    if g[At(first, k, |g|)].active {
      DisableGuardCells(w, p, g, first, k, w', now, partner);
      DisableGuardLines(w, p, g, first, k, w', now, partner);
      DisableGuardTimers(w, p, g, first, k, w', now, partner);
    } else {
      assert forall c :: !InputAt(g, first, k, c);
      assert forall l :: !LineAt(g, first, k, l);
    }
  }

  lemma {:induction false} DisableFootprint(g: seq<Guard>, p: Pid, clock: seq<nat>, w: World, first: nat, i: nat, k: int,
                                            index: nat, partner: Option<Pid>) returns (w': World)
    requires Fits(g, w) && |clock| == |g| && first < |g| && i < |g| && -1 <= k < |g|
    requires k >= 0 ==> i == At(first, k, |g|)
    requires Footprint(w, p, g, first, k, false)
    ensures w' == DisableFrom(g, p, clock, w, i, k, index, partner).world
    ensures Footprint(w', p, g, first, -1, false)
    decreases k + 1
  {
    if k < 0 { return w; }
    if k > 0 { Turn(first, k - 1, |g|); }
    if !g[i].active {
      DisablePassFootprint(w, p, g, first, k, w, clock[k], partner);
      w' := DisableFootprint(g, p, clock, w, first, Minus1Mod(i, |g|), k - 1, index, partner);
    } else {
      var a := DisableGuard(w, p, g[i], clock[k], partner);
      DisablePassFootprint(w, p, g, first, k, a.world, clock[k], partner);
      w' := DisableFootprint(g, p, clock, a.world, first, Minus1Mod(i, |g|), k - 1, if a.ready then i else index, a.partner);
    }
  }

  /** What partners, interrupt handlers and the timeout handler may do to the
      process between enabling and disabling: take it out of places, never put it into one. */
  ghost predicate OnlyRemoves(w: World, w': World, p: Pid) {
    && SameShape(w, w') && Sorted(w'.timers)
    && (forall c :: 0 <= c < |w.cells| && w'.cells[c].waiting == Some(p) ==> w.cells[c].waiting == Some(p))
    && (forall l :: 0 <= l < |w.lines| && w'.lines[l].waiting == Some(p) ==> w.lines[l].waiting == Some(p))
    && (forall t: nat :: Copies(w'.timers, Entry(t, p)) <= Copies(w.timers, Entry(t, p)))
  }

  /** A lone output that has been readied has been taken out of its channel by the inputter. */
  predicate OutputsTaken(w: World, p: Pid, g: seq<Guard>)
    requires Fits(g, w)
  {
    forall i :: 0 <= i < |g| && g[i].active && g[i].kind.ChanOut? ==> w.cells[g[i].kind.chan].waiting != Some(p)
  }

  /** Disable undoes enable. `w'` is the world in which the ALT is disabled. */
  lemma DisableUndoesEnable(alt: Alternation, p: Pid, clock: seq<nat>, w: World, w': World, clock': seq<nat>)
    requires Fits(alt.guards, w) && |clock| == |clock'| == |alt.guards| && Clean(w, p)
    requires alt.pri || alt.index < |alt.guards|
    requires var e := EnableAlt(alt, p, clock, w);
             OnlyRemoves(e.world, w', p) && SameShape(w, w') && OutputsTaken(w', p, alt.guards)
    ensures var e := EnableAlt(alt, p, clock, w);
            && e.index < |alt.guards| && e.count < |alt.guards|
            && Clean(DisableAlt(alt.(index := e.index, count := e.count), p, clock', w').world, p)
  {
    var g, first := alt.guards, FirstGuard(alt);
    assert first < |g| && At(first, 0, |g|) == first;
    var e := EnableAlt(alt, p, clock, w);
    NoFootprint(w, p, g, first, true);
    EnableFootprint(g, p, clock, w, first, 0, None);
    EnableKeepsShape(g, p, clock, w, first, 0, None);
    forall c | 0 <= c < |w'.cells| && w'.cells[c].waiting == Some(p)
      ensures exists j :: 0 <= j <= e.count && InputAt(g, first, j, c)
    {
      var j :| 0 <= j <= e.count && (InputAt(g, first, j, c) || OutputAt(g, first, j, c));
      assert !OutputAt(g, first, j, c);
    }
    assert Footprint(w', p, g, first, e.count, false);
    var w'' := DisableFootprint(g, p, clock', w', first, e.index, e.count, e.index, None);
    NoFootprint(w'', p, g, first, false);
    DisableKeepsShape(g, p, clock', w', e.index, e.count, e.index, None);
  }
}
