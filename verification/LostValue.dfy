/** A timeout in front of a channel input can lose a value: the outputter is
    readied and resumes although nothing took what it offered. */
module LostValue {
  import opened Types
  import opened Alt
  import opened AltLaws
  import opened AltChannels

  /** Disabling leaves other processes in their channels. */
  lemma {:induction false} DisableKeepsOccupant(g: seq<Guard>, p: Pid, clock: seq<nat>, w: World, i: nat, k: int,
                                                index: nat, partner: Option<Pid>, c: nat)
    requires Fits(g, w) && |clock| == |g| && i < |g| && k < |g|
    requires c < |w.cells| && w.cells[c].waiting.Some? && w.cells[c].waiting != Some(p)
    ensures var w' := DisableFrom(g, p, clock, w, i, k, index, partner).world;
            |w'.cells| == |w.cells| && w'.cells[c] == w.cells[c]
    decreases k + 1
  {
    if k >= 0 {
      if !g[i].active {
        DisableKeepsOccupant(g, p, clock, w, Minus1Mod(i, |g|), k - 1, index, partner, c);
      } else {
        var a := DisableGuard(w, p, g[i], clock[k], partner);
        DisableKeepsOccupant(g, p, clock, a.world, Minus1Mod(i, |g|), k - 1, if a.ready then i else index, a.partner, c);
      }
    }
  }

  /** When some channel input of the prefix is ready, its outputter is the partner
      that is readied. Its value is taken and its channel emptied exactly when the
      first selectable guard is a channel input; otherwise nothing is taken from any
      channel and the outputter is still named in its own. */
  lemma ServedIffInputFirst(alt: Alternation, first: nat, p: Pid, clock: seq<nat>, w: World) returns (s: int, t: int)
    requires Fits(alt.guards, w) && |clock| == |alt.guards| && LeftBy(alt, first)
    requires exists j :: 0 <= j <= alt.count && ReadyInputAt(w, p, alt.guards, clock, first, j)
    ensures FirstSelectable(w, p, alt.guards, clock, first, alt.count, s) && s <= alt.count
    ensures FirstReadyInput(w, p, alt.guards, clock, first, alt.count, t) && t <= alt.count
    ensures var d, c := DisableAlt(alt, p, clock, w), alt.guards[At(first, t, |alt.guards|)].kind.chan;
            && d.partner == w.cells[c].waiting
            && (alt.guards[At(first, s, |alt.guards|)].kind.ChanIn? ==>
                  d.transfer == FromChannel(alt.guards[At(first, t, |alt.guards|)].kind.dest, w.cells[c].src)
                  && d.world.cells[c].waiting == None)
            && (!alt.guards[At(first, s, |alt.guards|)].kind.ChanIn? ==>
                  !d.transfer.FromChannel? && d.world.cells[c] == w.cells[c])
  {
    var g := alt.guards;
    s, t := DisablePicks(g, p, clock, w, first, alt.index, alt.count, alt.index, None);
    assert forall j :: 0 <= j <= alt.count && ReadyInputAt(w, p, g, clock, first, j) ==> SelectableAt(w, p, g, clock, first, j);
    var c := g[At(first, t, |g|)].kind.chan;
    DisableKeepsOccupant(g, p, clock, w, alt.index, alt.count, alt.index, None, c);
    if g[At(first, s, |g|)].kind.ChanIn? {
      assert ReadyInputAt(w, p, g, clock, first, s);
      assert s == t;
      DisableKeepsData(g, p, clock, w, alt.index, alt.count, alt.index, None);
    }
  }

  /** Exactly-once transfer fails for a timeout in front of an input: process 1
      offers variable 0 on channel 0 to process 0, whose timeout has expired. Process
      1 is readied and resumes, its value never having been taken, and is still
      named in the channel although it no longer offers anything. */
  lemma TimeoutLosesValue()
    ensures var inputs, output := [Guard(Timeout(5), true), Guard(ChanIn(0, 0), true)], [Guard(ChanOut(0, 0), true)];
            var w := World([Cell(Some(1), Some(Address(1, 0)))], [], [Entry(5, 0)]);
            var d := DisableAlt(Alternation(inputs, 1, 1, true), 0, [5, 5], w);
            && d.partner == Some(1) && d.transfer == Nothing
            && DisableAlt(Alternation(output, 0, 0, false), 1, [5], d.world) == Disabled(d.world, 0, None, Nothing)
            && d.world.cells[0].waiting == Some(1)
  {
    PartnerWithoutTransfer();
    var inputs, output := [Guard(Timeout(5), true), Guard(ChanIn(0, 0), true)], [Guard(ChanOut(0, 0), true)];
    var w := World([Cell(Some(1), Some(Address(1, 0)))], [], [Entry(5, 0)]);
    var d := DisableAlt(Alternation(inputs, 1, 1, true), 0, [5, 5], w);
    OutputterResumes(Alternation(output, 0, 0, false), 1, [5], d.world);
  }
}
