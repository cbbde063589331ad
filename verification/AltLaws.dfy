/** What enabling and disabling an ALT guarantee together. */
module AltLaws {
  import opened Types
  import opened Alt

  // ---------- selection ----------

  /** Enabling finds an active guard ready: a partner in the input channel,
      an expired deadline, a pending interrupt, or skip. */
  predicate Ready(w: World, p: Pid, g: Guard, now: nat)
    requires GuardFits(g, w)
  {
    g.active &&
    match g.kind
    case ChanIn(c, _) => w.cells[c].waiting.Some? && w.cells[c].waiting.value != p
    case ChanOut(_, _) => false
    case Skip => true
    case Timeout(time) => now >= time
    case Interrupt(l, _) => w.lines[l].count > 0
  }

  /** Disabling also takes an active output guard as ready: its partner has come and gone. */
  predicate Selectable(w: World, p: Pid, g: Guard, now: nat)
    requires GuardFits(g, w)
  {
    Ready(w, p, g, now) || (g.active && g.kind.ChanOut?)
  }

  predicate ReadyAt(w: World, p: Pid, g: seq<Guard>, clock: seq<nat>, first: nat, j: nat)
    requires Fits(g, w) && |clock| == |g| && first < |g| && j < |g|
  {
    Ready(w, p, g[At(first, j, |g|)], clock[j])
  }

  predicate SelectableAt(w: World, p: Pid, g: seq<Guard>, clock: seq<nat>, first: nat, j: nat)
    requires Fits(g, w) && |clock| == |g| && first < |g| && j < |g|
  {
    Selectable(w, p, g[At(first, j, |g|)], clock[j])
  }

  predicate ReadyInputAt(w: World, p: Pid, g: seq<Guard>, clock: seq<nat>, first: nat, j: nat)
    requires Fits(g, w) && |clock| == |g| && first < |g| && j < |g|
  {
    ReadyAt(w, p, g, clock, first, j) && g[At(first, j, |g|)].kind.ChanIn?
  }

  lemma {:induction false} EnableKeepsShape(g: seq<Guard>, p: Pid, clock: seq<nat>, w: World, first: nat, k: nat, partner: Option<Pid>)
    requires Fits(g, w) && |clock| == |g| && first < |g| && k <= |g|
    ensures var r := EnableFrom(g, p, clock, w, At(first, k, |g|), k, partner);
            && SameShape(w, r.world)
            && k - 1 <= r.count < |g| && 0 <= r.count
            && r.index == At(first, r.count, |g|)
            && (!r.ready ==> r.count == |g| - 1)
            && (r.ready ==> k <= r.count)
    decreases |g| - k
  {
    if k == |g| {
      Turn(first, k - 1, |g|);
    } else {
      var i := At(first, k, |g|);
      Turn(first, k, |g|);
      if !g[i].active {
        EnableKeepsShape(g, p, clock, w, first, k + 1, partner);
      } else {
        var a := EnableGuard(w, p, g[i], clock[k], partner);
        assert SameShape(w, a.world);
        if !a.ready {
          EnableKeepsShape(g, p, clock, a.world, first, k + 1, a.partner);
        }
      }
    }
  }

  lemma EnablePass(g: seq<Guard>, p: Pid, clock: seq<nat>, w: World, first: nat, k: nat, partner: Option<Pid>)
    requires Fits(g, w) && OutputAlone(g) && |clock| == |g| && first < |g| && k < |g|
    requires g[At(first, k, |g|)].active
    ensures var a := EnableGuard(w, p, g[At(first, k, |g|)], clock[k], partner);
            && SameShape(w, a.world)
            && (a.ready <==> ReadyAt(w, p, g, clock, first, k))
            && (forall j :: 0 <= j < |g| && j != k ==>
                  (ReadyAt(a.world, p, g, clock, first, j) <==> ReadyAt(w, p, g, clock, first, j)))
  {
  }

  predicate Finds(w: World, p: Pid, g: seq<Guard>, clock: seq<nat>, first: nat, k: nat, r: Enabled)
    requires Fits(g, w) && |clock| == |g| && first < |g|
  {
    && k - 1 <= r.count < |g| && (r.ready ==> k <= r.count)
    && (forall j :: k <= j <= r.count ==> (ReadyAt(w, p, g, clock, first, j) <==> r.ready && j == r.count))
  }

  lemma {:induction false} EnableFinds(g: seq<Guard>, p: Pid, clock: seq<nat>, w: World, first: nat, k: nat, partner: Option<Pid>)
    requires Fits(g, w) && OutputAlone(g) && |clock| == |g| && first < |g| && k <= |g|
    ensures Finds(w, p, g, clock, first, k, EnableFrom(g, p, clock, w, At(first, k, |g|), k, partner))
    decreases |g| - k
  {
    if k < |g| {
      var i := At(first, k, |g|);
      Turn(first, k, |g|);
      if !g[i].active {
        assert !ReadyAt(w, p, g, clock, first, k);
        EnableFinds(g, p, clock, w, first, k + 1, partner);
      } else {
        EnablePass(g, p, clock, w, first, k, partner);
        var a := EnableGuard(w, p, g[i], clock[k], partner);
        if !a.ready {
          EnableFinds(g, p, clock, a.world, first, k + 1, a.partner);
        }
      }
    }
  }

  /** Enabling stops exactly at the first ready guard in its order; when it
      reports no ready guard it has enabled every active guard. */
  lemma EnableStopsAtFirstReady(alt: Alternation, p: Pid, clock: seq<nat>, w: World)
    requires Fits(alt.guards, w) && OutputAlone(alt.guards) && |clock| == |alt.guards|
    requires alt.pri || alt.index < |alt.guards|
    ensures var r, first, n := EnableAlt(alt, p, clock, w), FirstGuard(alt), |alt.guards|;
            && 0 <= r.count < n && r.index == At(first, r.count, n)
            && (r.ready <==> exists j :: 0 <= j < n && ReadyAt(w, p, alt.guards, clock, first, j))
            && (r.ready ==> ReadyAt(w, p, alt.guards, clock, first, r.count))
            && (!r.ready ==> r.count == n - 1)
            && (forall j :: 0 <= j < r.count ==> !ReadyAt(w, p, alt.guards, clock, first, j))
  {
    var first, n := FirstGuard(alt), |alt.guards|;
    assert first < n && At(first, 0, n) == first;
    EnableKeepsShape(alt.guards, p, clock, w, first, 0, None);
    EnableFinds(alt.guards, p, clock, w, first, 0, None);
    var r := EnableAlt(alt, p, clock, w);
    assert r == EnableFrom(alt.guards, p, clock, w, At(first, 0, n), 0, None);
    if r.ready {
      assert ReadyAt(w, p, alt.guards, clock, first, r.count);
    }
  }

  lemma DisablePass(g: seq<Guard>, p: Pid, clock: seq<nat>, w: World, first: nat, k: nat, partner: Option<Pid>)
    requires Fits(g, w) && |clock| == |g| && first < |g| && k < |g|
    requires g[At(first, k, |g|)].active
    ensures var h := g[At(first, k, |g|)];
            var a := DisableGuard(w, p, h, clock[k], partner);
            && SameShape(w, a.world)
            && (a.ready <==> SelectableAt(w, p, g, clock, first, k))
            && (a.ready && h.kind.ChanIn? <==> ReadyInputAt(w, p, g, clock, first, k))
            && a.partner == (if a.ready && h.kind.ChanIn? then w.cells[h.kind.chan].waiting else partner)
  {
  }

  lemma DisablePassKeeps(g: seq<Guard>, p: Pid, clock: seq<nat>, w: World, first: nat, i: nat, now: nat, partner: Option<Pid>, w': World)
    requires Fits(g, w) && |clock| == |g| && first < |g| && i < |g|
    requires w' == DisableGuard(w, p, g[i], now, partner).world
    ensures SameShape(w, w')
    ensures forall j :: 0 <= j < |g| ==> (SelectableAt(w', p, g, clock, first, j) <==> SelectableAt(w, p, g, clock, first, j))
    ensures forall j :: 0 <= j < |g| ==> (ReadyInputAt(w', p, g, clock, first, j) <==> ReadyInputAt(w, p, g, clock, first, j))
    ensures forall j :: 0 <= j < |g| && ReadyInputAt(w, p, g, clock, first, j) ==>
              w'.cells[g[At(first, j, |g|)].kind.chan] == w.cells[g[At(first, j, |g|)].kind.chan]
  {
  }

  /** Position `s` is the first of 0..k that is selectable; k + 1 stands for none. */
  predicate FirstSelectable(w: World, p: Pid, g: seq<Guard>, clock: seq<nat>, first: nat, k: int, s: int)
    requires Fits(g, w) && |clock| == |g| && first < |g| && -1 <= k < |g|
  {
    && 0 <= s <= k + 1
    && (s <= k ==> SelectableAt(w, p, g, clock, first, s))
    && (forall m :: 0 <= m < s ==> !SelectableAt(w, p, g, clock, first, m))
  }

  predicate FirstReadyInput(w: World, p: Pid, g: seq<Guard>, clock: seq<nat>, first: nat, k: int, t: int)
    requires Fits(g, w) && |clock| == |g| && first < |g| && -1 <= k < |g|
  {
    && 0 <= t <= k + 1
    && (t <= k ==> ReadyInputAt(w, p, g, clock, first, t))
    && (forall m :: 0 <= m < t ==> !ReadyInputAt(w, p, g, clock, first, m))
  }

  /** Walking back over the prefix overwrites the index and the partner, so the
      first match in enabling order is the one that stays. */
  lemma {:induction false} DisablePicks(g: seq<Guard>, p: Pid, clock: seq<nat>, w: World, first: nat, i: nat, k: int,
                                        index: nat, partner: Option<Pid>) returns (s: int, t: int)
    requires Fits(g, w) && |clock| == |g| && first < |g| && i < |g| && -1 <= k < |g|
    requires k >= 0 ==> i == At(first, k, |g|)
    ensures FirstSelectable(w, p, g, clock, first, k, s) && FirstReadyInput(w, p, g, clock, first, k, t)
    ensures var r := DisableFrom(g, p, clock, w, i, k, index, partner);
            && r.index == (if s <= k then At(first, s, |g|) else index)
            && r.partner == (if t <= k then w.cells[g[At(first, t, |g|)].kind.chan].waiting else partner)
    decreases k + 1
  {
    if k < 0 { return 0, 0; }
    if k > 0 { Turn(first, k - 1, |g|); }
    var i' := Minus1Mod(i, |g|);
    if !g[i].active {
      assert !SelectableAt(w, p, g, clock, first, k) && !ReadyInputAt(w, p, g, clock, first, k);
      s, t := DisablePicks(g, p, clock, w, first, i', k - 1, index, partner);
      s, t := if s == k then k + 1 else s, if t == k then k + 1 else t;
    } else {
      var a := DisableGuard(w, p, g[i], clock[k], partner);
      DisablePass(g, p, clock, w, first, k, partner);
      DisablePassKeeps(g, p, clock, w, first, i, clock[k], partner, a.world);
      s, t := DisablePicks(g, p, clock, a.world, first, i', k - 1, if a.ready then i else index, a.partner);
      if t < k { assert ReadyInputAt(w, p, g, clock, first, t); }
      if s == k && !a.ready { s := k + 1; }
      if t == k && !ReadyInputAt(w, p, g, clock, first, k) { t := k + 1; }
    }
  }

  // ---------- what a selection returns ----------

  /** `first`, `count`: the prefix disable_alt walks, as enable_alt left it. */
  predicate LeftBy(alt: Alternation, first: nat)
    requires 0 < |alt.guards|
  {
    first < |alt.guards| && 0 <= alt.count < |alt.guards| && alt.index == At(first, alt.count, |alt.guards|)
  }

  /** The selected branch is the first one in enabling order that is ready when
      the ALT is disabled, and the data moved are that branch's. */
  lemma DisableSelectsFirstReady(alt: Alternation, first: nat, p: Pid, clock: seq<nat>, w: World) returns (s: int)
    requires Fits(alt.guards, w) && |clock| == |alt.guards| && LeftBy(alt, first)
    ensures FirstSelectable(w, p, alt.guards, clock, first, alt.count, s)
    ensures var n, d := |alt.guards|, DisableAlt(alt, p, clock, w);
            && d.index == (if s <= alt.count then At(first, s, n) else alt.index)
            && (alt.guards[d.index].kind.ChanIn? ==>
                  d.transfer == FromChannel(alt.guards[d.index].kind.dest, w.cells[alt.guards[d.index].kind.chan].src))
            && (alt.guards[d.index].kind.Interrupt? ==>
                  d.transfer == FromLine(alt.guards[d.index].kind.into, w.lines[alt.guards[d.index].kind.line].count))
  {
    var t;
    s, t := DisablePicks(alt.guards, p, clock, w, first, alt.index, alt.count, alt.index, None);
    DisableKeepsData(alt.guards, p, clock, w, alt.index, alt.count, alt.index, None);
  }

  lemma {:induction false} DisableKeepsData(g: seq<Guard>, p: Pid, clock: seq<nat>, w: World, i: nat, k: int,
                                            index: nat, partner: Option<Pid>)
    requires Fits(g, w) && |clock| == |g| && i < |g| && k < |g|
    ensures var w' := DisableFrom(g, p, clock, w, i, k, index, partner).world;
            && SameShape(w, w')
            && (forall c :: 0 <= c < |w.cells| ==> w'.cells[c].src == w.cells[c].src)
            && (forall l :: 0 <= l < |w.lines| ==> w'.lines[l].count == w.lines[l].count)
    decreases k + 1
  {
    if k >= 0 {
      if !g[i].active {
        DisableKeepsData(g, p, clock, w, Minus1Mod(i, |g|), k - 1, index, partner);
      } else {
        var a := DisableGuard(w, p, g[i], clock[k], partner);
        assert SameShape(w, a.world);
        DisableKeepsData(g, p, clock, a.world, Minus1Mod(i, |g|), k - 1, if a.ready then i else index, a.partner);
      }
    }
  }

  /** The partner that the selected branch has: the outputter waiting in its channel. */
  function PartnerOf(w: World, g: Guard): Option<Pid>
    requires GuardFits(g, w)
  {
    if g.kind.ChanIn? then w.cells[g.kind.chan].waiting else None
  }

  /** The partner disable_alt returns is the selected branch's own exactly when
      the first selectable guard of the prefix is a channel input, or no channel
      input of the prefix is ready; should nothing be selectable, exactly when the
      cursor is not at an input from an occupied channel. */
  lemma PartnerIsExact(alt: Alternation, first: nat, p: Pid, clock: seq<nat>, w: World) returns (s: int)
    requires Fits(alt.guards, w) && |clock| == |alt.guards| && LeftBy(alt, first)
    ensures FirstSelectable(w, p, alt.guards, clock, first, alt.count, s)
    ensures var d := DisableAlt(alt, p, clock, w);
            d.partner == PartnerOf(w, alt.guards[d.index]) <==>
            if s <= alt.count then
              || alt.guards[At(first, s, |alt.guards|)].kind.ChanIn?
              || forall j :: 0 <= j <= alt.count ==> !ReadyInputAt(w, p, alt.guards, clock, first, j)
            else !alt.guards[alt.index].kind.ChanIn? || w.cells[alt.guards[alt.index].kind.chan].waiting == None
  {
    var t;
    s, t := DisablePicks(alt.guards, p, clock, w, first, alt.index, alt.count, alt.index, None);
    assert forall j :: 0 <= j <= alt.count && ReadyInputAt(w, p, alt.guards, clock, first, j) ==>
             SelectableAt(w, p, alt.guards, clock, first, j);
    if s <= alt.count && alt.guards[At(first, s, |alt.guards|)].kind.ChanIn? {
      assert ReadyInputAt(w, p, alt.guards, clock, first, s);
      assert s == t;
    }
  }

  /** A timeout that expires while the ALT waits, in front of an input that has
      become ready: the timeout is selected, yet the outputter is returned as
      partner although it still occupies its channel. */
  lemma PartnerWithoutTransfer()
    ensures var g := [Guard(Timeout(5), true), Guard(ChanIn(0, 0), true)];
            var w := World([Cell(Some(1), Some(Address(1, 0)))], [], [Entry(5, 0)]);
            var d := DisableAlt(Alternation(g, 1, 1, true), 0, [5, 5], w);
            d.index == 0 && d.partner == Some(1) && d.transfer == Nothing && d.world.cells[0].waiting == Some(1)
  {
  }
}
