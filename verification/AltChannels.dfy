/** The exact effect on the channels of ALTs whose active guards are channel
    inputs and skips, or a lone channel output. */
module AltChannels {
  import opened Types
  import opened Alt
  import opened AltLaws
  import opened AltCleanup
  import TimeoutList

  /** Guard `h` inputs from channel `c`. */
  predicate InputOn(h: Guard, c: nat) {
    h.active && h.kind.ChanIn? && h.kind.chan == c
  }

  predicate Offers(g: seq<Guard>, c: nat) {
    exists i :: 0 <= i < |g| && InputOn(g[i], c)
  }

  predicate IsOutput(h: Guard) {
    h.active && h.kind.ChanOut?
  }

  /** The position of the active output guard, |g| if there is none. */
  function OutIndex(g: seq<Guard>): (n: nat)
    ensures n <= |g| && (n < |g| ==> IsOutput(g[n])) && forall i :: 0 <= i < n ==> !IsOutput(g[i])
  {
    if g == [] || IsOutput(g[0]) then 0 else 1 + OutIndex(g[1..])
  }

  predicate HasOutput(g: seq<Guard>) {
    OutIndex(g) < |g|
  }

  predicate Skips(h: Guard) {
    h.active && h.kind.Skip?
  }

  predicate HasSkip(g: seq<Guard>) {
    exists i :: 0 <= i < |g| && Skips(g[i])
  }

  /** The active guards use channels and skips only. */
  predicate ChannelsOnly(g: seq<Guard>) {
    forall i :: 0 <= i < |g| && g[i].active ==> g[i].kind.ChanIn? || g[i].kind.ChanOut? || g[i].kind.Skip?
  }

  /** `cells` with `p` taken out of every channel it waits in. */
  function Cleared(cells: seq<Cell>, p: Pid): (r: seq<Cell>)
    ensures |r| == |cells|
    ensures forall c :: 0 <= c < |cells| ==>
              r[c] == if cells[c].waiting == Some(p) then cells[c].(waiting := None) else cells[c]
  {
    seq(|cells|, c requires 0 <= c < |cells| =>
      if cells[c].waiting == Some(p) then cells[c].(waiting := None) else cells[c])
  }

  predicate Absent(cells: seq<Cell>, p: Pid) {
    forall c :: 0 <= c < |cells| ==> cells[c].waiting != Some(p)
  }

  /** `cells'` is `cells` with `p` put into some channels that were empty. */
  predicate Joined(cells: seq<Cell>, cells': seq<Cell>, p: Pid) {
    && |cells| == |cells'|
    && forall c :: 0 <= c < |cells| ==>
         cells'[c] == cells[c] || (cells[c].waiting == None && cells'[c] == cells[c].(waiting := Some(p)))
  }

  /** `cells'` is `cells` with `p` taken out of some channels. */
  predicate Left(cells: seq<Cell>, cells': seq<Cell>, p: Pid) {
    && |cells| == |cells'|
    && forall c :: 0 <= c < |cells| ==>
         cells'[c] == cells[c] || (cells[c].waiting == Some(p) && cells'[c] == cells[c].(waiting := None))
  }

  /** Every guard is visited in some position. */
  lemma Position(first: nat, i: nat, n: nat) returns (j: nat)
    requires first < n && i < n
    ensures j < n && At(first, j, n) == i
  {
    j := if first <= i then i - first else i - first + n;
  }

  // ---------- enabling ----------

  lemma {:induction false} EnableJoins(g: seq<Guard>, p: Pid, clock: seq<nat>, w: World, i: nat, k: nat, partner: Option<Pid>)
    requires Fits(g, w) && |clock| == |g| && i < |g| && k <= |g|
    requires ChannelsOnly(g) && !HasOutput(g)
    ensures var r := EnableFrom(g, p, clock, w, i, k, partner);
            && Joined(w.cells, r.world.cells, p) && r.world.lines == w.lines && r.world.timers == w.timers
            && (!r.ready ==> r.partner == partner)
    decreases |g| - k
  {
    if k < |g| {
      if !g[i].active {
        EnableJoins(g, p, clock, w, Plus1Mod(i, |g|), k + 1, partner);
      } else {
        assert !IsOutput(g[i]);
        var a := EnableGuard(w, p, g[i], clock[k], partner);
        assert Joined(w.cells, a.world.cells, p);
        if !a.ready {
          EnableJoins(g, p, clock, a.world, Plus1Mod(i, |g|), k + 1, a.partner);
        }
      }
    }
  }

  /** Without a ready guard, `p` ends up in every channel it offers to input from. */
  lemma {:induction false} EnableWaitsEverywhere(g: seq<Guard>, p: Pid, clock: seq<nat>, w: World, first: nat, k: nat, partner: Option<Pid>)
    requires Fits(g, w) && |clock| == |g| && first < |g| && k <= |g|
    requires ChannelsOnly(g) && !HasOutput(g)
    ensures var r := EnableFrom(g, p, clock, w, At(first, k, |g|), k, partner);
            && |r.world.cells| == |w.cells|
            && (!r.ready ==> forall j :: k <= j < |g| ==>
                  var h := g[At(first, j, |g|)];
                  !Skips(h) && (h.active && h.kind.ChanIn? ==> r.world.cells[h.kind.chan].waiting == Some(p)))
    decreases |g| - k
  {
    EnableKeepsShape(g, p, clock, w, first, k, partner);
    if k < |g| {
      var i := At(first, k, |g|);
      Turn(first, k, |g|);
      if !g[i].active {
        EnableWaitsEverywhere(g, p, clock, w, first, k + 1, partner);
      } else {
        assert !IsOutput(g[i]);
        var a := EnableGuard(w, p, g[i], clock[k], partner);
        assert SameShape(w, a.world);
        if !a.ready {
          EnableWaitsEverywhere(g, p, clock, a.world, first, k + 1, a.partner);
          EnableJoins(g, p, clock, a.world, Plus1Mod(i, |g|), k + 1, a.partner);
        }
      }
    }
  }

  /** An ALT with a lone output: the outputter replaces whoever is in the channel, and waits. */
  lemma {:induction false} EnableLoneOutput(g: seq<Guard>, p: Pid, clock: seq<nat>, w: World, first: nat, k: nat, partner: Option<Pid>)
    requires Fits(g, w) && |clock| == |g| && first < |g| && k <= |g|
    requires OutputAlone(g) && HasOutput(g)
    ensures var r := EnableFrom(g, p, clock, w, At(first, k, |g|), k, partner);
            var c, x := g[OutIndex(g)].kind.chan, g[OutIndex(g)].kind.src;
            && !r.ready
            && (exists j :: k <= j < |g| && At(first, j, |g|) == OutIndex(g)) ==>
                 r.world == w.(cells := w.cells[c := Cell(Some(p), Some(Address(p, x)))]) && r.partner == w.cells[c].waiting
    ensures var r := EnableFrom(g, p, clock, w, At(first, k, |g|), k, partner);
            && !r.ready
            && ((forall j :: k <= j < |g| ==> At(first, j, |g|) != OutIndex(g)) ==> r.world == w && r.partner == partner)
    decreases |g| - k
  {
    if k < |g| {
      var i := At(first, k, |g|);
      Turn(first, k, |g|);
      if !g[i].active {
        EnableLoneOutput(g, p, clock, w, first, k + 1, partner);
      } else {
        assert i == OutIndex(g);
        var a := EnableGuard(w, p, g[i], clock[k], partner);
        EnableLoneOutput(g, p, clock, a.world, first, k + 1, a.partner);
        assert forall j :: k < j < |g| ==> At(first, j, |g|) != i;
      }
    }
  }

  // ---------- disabling ----------

  lemma {:induction false} DisableLeaves(g: seq<Guard>, p: Pid, clock: seq<nat>, w: World, i: nat, k: int,
                                         index: nat, partner: Option<Pid>)
    requires Fits(g, w) && |clock| == |g| && i < |g| && k < |g| && ChannelsOnly(g)
    ensures var r := DisableFrom(g, p, clock, w, i, k, index, partner);
            Left(w.cells, r.world.cells, p) && r.world.lines == w.lines && r.world.timers == w.timers
    decreases k + 1
  {
    if k >= 0 {
      if !g[i].active {
        DisableLeaves(g, p, clock, w, Minus1Mod(i, |g|), k - 1, index, partner);
      } else {
        var a := DisableGuard(w, p, g[i], clock[k], partner);
        assert Left(w.cells, a.world.cells, p);
        DisableLeaves(g, p, clock, a.world, Minus1Mod(i, |g|), k - 1, if a.ready then i else index, a.partner);
      }
    }
  }

  /** Walking back takes `p` out of exactly the channels it waits in. */
  lemma DisableClears(g: seq<Guard>, p: Pid, clock: seq<nat>, w: World, first: nat, i: nat, k: nat, index: nat, partner: Option<Pid>)
    requires Fits(g, w) && |clock| == |g| && first < |g| && k < |g| && i == At(first, k, |g|) && ChannelsOnly(g)
    requires CellFootprint(w, p, g, first, k, false) && w.lines == [] && w.timers == []
    ensures DisableFrom(g, p, clock, w, i, k, index, partner).world == w.(cells := Cleared(w.cells, p))
  {
    DisableLeaves(g, p, clock, w, i, k, index, partner);
    assert forall t: nat :: TimeoutList.Copies([], Entry(t, p)) == 0;
    var w' := DisableFootprint(g, p, clock, w, first, i, k, index, partner);
    NoFootprint(w', p, g, first, false);
    assert w'.cells == Cleared(w.cells, p);
  }

  lemma {:induction false} DisableOutput(g: seq<Guard>, p: Pid, clock: seq<nat>, w: World, first: nat, i: nat, k: int,
                                         index: nat, partner: Option<Pid>)
    requires Fits(g, w) && |clock| == |g| && first < |g| && i < |g| && -1 <= k < |g| && (k >= 0 ==> i == At(first, k, |g|))
    requires OutputAlone(g) && HasOutput(g)
    ensures DisableFrom(g, p, clock, w, i, k, index, partner) ==
            Walk(w, if exists j :: 0 <= j <= k && At(first, j, |g|) == OutIndex(g) then OutIndex(g) else index, partner)
    decreases k + 1
  {
    if k >= 0 {
      if k > 0 { Turn(first, k - 1, |g|); }
      if !g[i].active {
        DisableOutput(g, p, clock, w, first, Minus1Mod(i, |g|), k - 1, index, partner);
      } else {
        assert i == OutIndex(g);
        DisableOutput(g, p, clock, w, first, Minus1Mod(i, |g|), k - 1, i, partner);
      }
    }
  }

  // ---------- whole ALTs ----------

  function Ticks(n: nat): seq<nat> {
    seq(n, _ => 0)
  }

  /** A world without interrupt channels and timeouts. */
  function Channels(cells: seq<Cell>): World {
    World(cells, [], [])
  }

  /** Enabling inputs: ready exactly when a skip is active or a partner waits in an
      offered channel; otherwise `p` waits in every channel it offers. */
  lemma EnableInputs(alt: Alternation, p: Pid, cells: seq<Cell>)
    requires Fits(alt.guards, Channels(cells)) && (alt.pri || alt.index < |alt.guards|)
    requires ChannelsOnly(alt.guards) && OutputAlone(alt.guards) && !HasOutput(alt.guards) && Absent(cells, p)
    ensures var e := EnableAlt(alt, p, Ticks(|alt.guards|), Channels(cells));
            && e.world == Channels(e.world.cells) && Joined(cells, e.world.cells, p)
            && 0 <= e.count < |alt.guards| && e.index == At(FirstGuard(alt), e.count, |alt.guards|)
            && (!e.ready ==>
                  && e.partner == None && e.count == |alt.guards| - 1 && !HasSkip(alt.guards)
                  && (forall c :: 0 <= c < |cells| && Offers(alt.guards, c) ==>
                        cells[c].waiting == None && e.world.cells[c].waiting == Some(p)))
  {
    var g, first, w, clock := alt.guards, FirstGuard(alt), Channels(cells), Ticks(|alt.guards|);
    assert At(first, 0, |g|) == first;
    EnableJoins(g, p, clock, w, first, 0, None);
    EnableKeepsShape(g, p, clock, w, first, 0, None);
    EnableStopsAtFirstReady(alt, p, clock, w);
    var e := EnableAlt(alt, p, clock, w);
    if !e.ready {
      EnableWaitsEverywhere(g, p, clock, w, first, 0, None);
      forall i | 0 <= i < |g|
        ensures !Skips(g[i])
        ensures g[i].active && g[i].kind.ChanIn? ==> e.world.cells[g[i].kind.chan].waiting == Some(p)
        ensures g[i].active && g[i].kind.ChanIn? ==> cells[g[i].kind.chan].waiting == None
      {
        var j := Position(first, i, |g|);
        assert !ReadyAt(w, p, g, clock, first, j);
      }
    }
  }

  lemma EnableOutput(alt: Alternation, p: Pid, cells: seq<Cell>)
    requires Fits(alt.guards, Channels(cells)) && (alt.pri || alt.index < |alt.guards|)
    requires OutputAlone(alt.guards) && HasOutput(alt.guards)
    ensures var e := EnableAlt(alt, p, Ticks(|alt.guards|), Channels(cells));
            var c, x := alt.guards[OutIndex(alt.guards)].kind.chan, alt.guards[OutIndex(alt.guards)].kind.src;
            && !e.ready && e.partner == cells[c].waiting
            && e.world == Channels(cells[c := Cell(Some(p), Some(Address(p, x)))])
            && e.count == |alt.guards| - 1 && e.index < |alt.guards|
  {
    var g, first := alt.guards, FirstGuard(alt);
    assert At(first, 0, |g|) == first;
    EnableKeepsShape(g, p, Ticks(|g|), Channels(cells), first, 0, None);
    var j := Position(first, OutIndex(g), |g|);
    EnableLoneOutput(g, p, Ticks(|g|), Channels(cells), first, 0, None);
  }

  /** Disabling inputs in front of a waiting partner: the partner's channel is
      emptied, `p` leaves every channel, and the partner is returned. */
  lemma DisableInputs(alt: Alternation, first: nat, p: Pid, cells: seq<Cell>)
    requires Fits(alt.guards, Channels(cells)) && LeftBy(alt, first) && ChannelsOnly(alt.guards) && !HasOutput(alt.guards)
    requires CellFootprint(Channels(cells), p, alt.guards, first, alt.count, false)
    requires exists j :: 0 <= j <= alt.count && ReadyAt(Channels(cells), p, alt.guards, Ticks(|alt.guards|), first, j)
    requires forall j :: 0 <= j < alt.count && ReadyAt(Channels(cells), p, alt.guards, Ticks(|alt.guards|), first, j) ==>
               alt.guards[At(first, j, |alt.guards|)].kind.ChanIn?
    ensures var d := DisableAlt(alt, p, Ticks(|alt.guards|), Channels(cells));
            var h := alt.guards[d.index];
            && h.active && (h.kind.ChanIn? || h.kind.Skip?)
            && (h.kind.ChanIn? ==>
                  var c := h.kind.chan;
                  && cells[c].waiting.Some? && cells[c].waiting != Some(p) && d.partner == cells[c].waiting
                  && d.world == Channels(Cleared(cells, p)[c := cells[c].(waiting := None)])
                  && d.transfer == FromChannel(h.kind.dest, cells[c].src))
            && (h.kind.Skip? ==> d.partner == None && d.world == Channels(Cleared(cells, p)) && d.transfer == Nothing)
  {
    var g, w, clock := alt.guards, Channels(cells), Ticks(|alt.guards|);
    var s, t := DisablePicks(g, p, clock, w, first, alt.index, alt.count, alt.index, None);
    var j :| 0 <= j <= alt.count && ReadyAt(w, p, g, clock, first, j);
    assert SelectableAt(w, p, g, clock, first, j);
    assert s <= alt.count;
    assert !IsOutput(g[At(first, s, |g|)]);
    assert ReadyAt(w, p, g, clock, first, s);
    assert forall m :: 0 <= m <= alt.count && ReadyInputAt(w, p, g, clock, first, m) ==> SelectableAt(w, p, g, clock, first, m);
    if g[At(first, s, |g|)].kind.ChanIn? {
      assert ReadyInputAt(w, p, g, clock, first, s);
      assert t == s;
    } else {
      assert s == alt.count;
    }
    DisableClears(g, p, clock, w, first, alt.index, alt.count, alt.index, None);
  }

  /** An outputter that has been readied selects its output whatever its channel
      holds: its code resumes, and the channel stays as it is. */
  lemma OutputterResumes(alt: Alternation, q: Pid, clock: seq<nat>, w: World)
    requires Fits(alt.guards, w) && |clock| == |alt.guards| && alt.index < |alt.guards| && alt.count == |alt.guards| - 1
    requires OutputAlone(alt.guards) && HasOutput(alt.guards)
    ensures DisableAlt(alt, q, clock, w) == Disabled(w, OutIndex(alt.guards), None, Nothing)
  {
    var n := |alt.guards|;
    var first := Plus1Mod(alt.index, n);
    assert At(first, n - 1, n) == alt.index;
    var j := Position(first, OutIndex(alt.guards), n);
    DisableOutput(alt.guards, q, clock, w, first, alt.index, alt.count, alt.index, None);
  }

  lemma DisableAfterOutput(alt: Alternation, p: Pid, cells: seq<Cell>)
    requires Fits(alt.guards, Channels(cells)) && alt.index < |alt.guards| && alt.count == |alt.guards| - 1
    requires OutputAlone(alt.guards) && HasOutput(alt.guards)
    ensures DisableAlt(alt, p, Ticks(|alt.guards|), Channels(cells)) ==
            Disabled(Channels(cells), OutIndex(alt.guards), None, Nothing)
  {
    OutputterResumes(alt, p, Ticks(|alt.guards|), Channels(cells));
  }

  /** The ALT of `p` with the cursor where enabling it left it. */
  function WithCursor(alt: Alternation, e: Enabled): Alternation {
    alt.(index := e.index, count := e.count)
  }

  /** The selected branch `h` took its input from the partner waiting in its
      channel, leaving `rest` otherwise, or is a skip. */
  predicate Took(h: Guard, d: Disabled, p: Pid, cells: seq<Cell>, rest: seq<Cell>) {
    && |rest| == |cells|
    && h.active && (h.kind.ChanIn? || h.kind.Skip?)
    && (h.kind.ChanIn? ==>
          && h.kind.chan < |cells| && cells[h.kind.chan].waiting.Some? && cells[h.kind.chan].waiting != Some(p)
          && d.partner == cells[h.kind.chan].waiting
          && d.world == Channels(rest[h.kind.chan := cells[h.kind.chan].(waiting := None)])
          && d.transfer == FromChannel(h.kind.dest, cells[h.kind.chan].src))
    && (h.kind.Skip? ==> d.partner == None && d.world == Channels(rest) && d.transfer == Nothing)
  }

  /** Enabling inputs changes no guard's readiness and puts the process into empty channels only. */
  lemma EnableLeavesNoMore(alt: Alternation, p: Pid, cells: seq<Cell>)
    requires Fits(alt.guards, Channels(cells)) && (alt.pri || alt.index < |alt.guards|)
    requires ChannelsOnly(alt.guards) && OutputAlone(alt.guards) && !HasOutput(alt.guards) && Absent(cells, p)
    ensures var g, first, clock := alt.guards, FirstGuard(alt), Ticks(|alt.guards|);
            var e := EnableAlt(alt, p, clock, Channels(cells));
            && Fits(g, e.world) && 0 <= e.count < |g| && e.world == Channels(e.world.cells)
            && CellFootprint(e.world, p, g, first, e.count, false)
            && forall j :: 0 <= j < |g| ==> (ReadyAt(e.world, p, g, clock, first, j) <==> ReadyAt(Channels(cells), p, g, clock, first, j))
  {
    var g, first, w, clock := alt.guards, FirstGuard(alt), Channels(cells), Ticks(|alt.guards|);
    var e := EnableAlt(alt, p, clock, w);
    EnableInputs(alt, p, cells);
    forall j | 0 <= j < |g| ensures ReadyAt(e.world, p, g, clock, first, j) <==> ReadyAt(w, p, g, clock, first, j) {
      assert !IsOutput(g[At(first, j, |g|)]);
    }
    assert forall t: nat :: TimeoutList.Copies([], Entry(t, p)) == 0;
    EnableFootprint(g, p, clock, w, first, 0, None);
    assert forall j, c :: 0 <= j < |g| ==> !OutputAt(g, first, j, c);
  }

  /** Enabling and disabling in one go leaves no trace but the transfer. */
  lemma SelectAtOnce(alt: Alternation, p: Pid, cells: seq<Cell>)
    requires Fits(alt.guards, Channels(cells)) && (alt.pri || alt.index < |alt.guards|)
    requires ChannelsOnly(alt.guards) && OutputAlone(alt.guards) && !HasOutput(alt.guards) && Absent(cells, p)
    requires EnableAlt(alt, p, Ticks(|alt.guards|), Channels(cells)).ready
    ensures var e := EnableAlt(alt, p, Ticks(|alt.guards|), Channels(cells));
            && Fits(alt.guards, e.world) && e.index < |alt.guards| && e.count < |alt.guards|
            && var d := DisableAlt(WithCursor(alt, e), p, Ticks(|alt.guards|), e.world);
               Took(alt.guards[d.index], d, p, cells, cells)
  {
    var g, first, w, clock := alt.guards, FirstGuard(alt), Channels(cells), Ticks(|alt.guards|);
    assert At(first, 0, |g|) == first;
    var e := EnableAlt(alt, p, clock, w);
    EnableInputs(alt, p, cells);
    EnableStopsAtFirstReady(alt, p, clock, w);
    EnableLeavesNoMore(alt, p, cells);
    assert ReadyAt(e.world, p, g, clock, first, e.count);
    DisableInputs(WithCursor(alt, e), first, p, e.world.cells);
    assert Cleared(e.world.cells, p) == cells;
  }

  /** Disabling an ALT that has waited in all its channels until a partner came. */
  lemma SelectAfterWait(alt: Alternation, p: Pid, cells: seq<Cell>, c: nat)
    requires Fits(alt.guards, Channels(cells)) && alt.index < |alt.guards| && alt.count == |alt.guards| - 1
    requires ChannelsOnly(alt.guards) && OutputAlone(alt.guards) && !HasOutput(alt.guards) && !HasSkip(alt.guards)
    requires forall b :: 0 <= b < |cells| && cells[b].waiting == Some(p) ==> Offers(alt.guards, b)
    requires c < |cells| && Offers(alt.guards, c) && cells[c].waiting.Some? && cells[c].waiting != Some(p)
    ensures var d := DisableAlt(alt, p, Ticks(|alt.guards|), Channels(cells));
            alt.guards[d.index].kind.ChanIn? && Took(alt.guards[d.index], d, p, cells, Cleared(cells, p))
  {
    var g, n, w, clock := alt.guards, |alt.guards|, Channels(cells), Ticks(|alt.guards|);
    var first := Plus1Mod(alt.index, n);
    assert At(first, n - 1, n) == alt.index;
    var i :| 0 <= i < n && InputOn(g[i], c);
    var j := Position(first, i, n);
    assert ReadyAt(w, p, g, clock, first, j);
    forall b | 0 <= b < |cells| && cells[b].waiting == Some(p)
      ensures exists m :: 0 <= m <= alt.count && (InputAt(g, first, m, b) || (false && OutputAt(g, first, m, b)))
    {
      var i' :| 0 <= i' < n && InputOn(g[i'], b);
      var m := Position(first, i', n);
      assert InputAt(g, first, m, b);
    }
    forall m | 0 <= m < n && ReadyAt(w, p, g, clock, first, m) ensures g[At(first, m, n)].kind.ChanIn? {
      assert !IsOutput(g[At(first, m, n)]) && !Skips(g[At(first, m, n)]);
    }
    DisableInputs(alt, first, p, cells);
    var d := DisableAlt(alt, p, clock, w);
    assert !Skips(g[d.index]);
  }

  /** Enabling puts `p` only into channels it offers to input from. */
  lemma EnableJoinsOffered(alt: Alternation, p: Pid, cells: seq<Cell>)
    requires Fits(alt.guards, Channels(cells)) && (alt.pri || alt.index < |alt.guards|)
    requires ChannelsOnly(alt.guards) && OutputAlone(alt.guards) && !HasOutput(alt.guards) && Absent(cells, p)
    ensures var e := EnableAlt(alt, p, Ticks(|alt.guards|), Channels(cells));
            |e.world.cells| == |cells| &&
            forall c :: 0 <= c < |cells| && e.world.cells[c].waiting == Some(p) ==> Offers(alt.guards, c)
  {
    var g, first, w, clock := alt.guards, FirstGuard(alt), Channels(cells), Ticks(|alt.guards|);
    assert At(first, 0, |g|) == first;
    EnableJoins(g, p, clock, w, first, 0, None);
    assert forall t: nat :: TimeoutList.Copies([], Entry(t, p)) == 0;
    EnableFootprint(g, p, clock, w, first, 0, None);
    var e := EnableAlt(alt, p, clock, w);
    forall c | 0 <= c < |cells| && e.world.cells[c].waiting == Some(p) ensures Offers(g, c) {
      var j :| 0 <= j <= e.count && (InputAt(g, first, j, c) || OutputAt(g, first, j, c));
      assert !IsOutput(g[At(first, j, |g|)]);
      assert InputOn(g[At(first, j, |g|)], c);
    }
  }
}
