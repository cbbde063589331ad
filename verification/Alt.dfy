/** Enabling and disabling of an ALT (enable_alt and disable_alt of sched.c),
    as functions of the channels, interrupt channels and timeout queue they touch.
    `clock` holds one clock reading for each guard visited. */
module Alt {
  import opened Types
  import opened TimeoutList

  function Plus1Mod(i: nat, m: nat): nat
    requires i < m
  {
    if i + 1 == m then 0 else i + 1
  }

  function Minus1Mod(i: nat, m: nat): nat
    requires i < m
  {
    if i == 0 then m - 1 else i - 1
  }

  lemma Remainder(x: nat, m: nat)
    requires 0 < m && x < 2 * m
    ensures x % m == if x < m then x else x - m
  {
    var e, r := x / m, x % m;
    assert x == e * m + r;
    assert e >= 2 ==> e * m >= 2 * m;
  }

  /** The two steps are the remainders plus1_mod and minus1_mod compute. */
  lemma ModSteps(i: nat, m: nat)
    requires i < m
    ensures Plus1Mod(i, m) == (i + 1) % m
    ensures Minus1Mod(i, m) == (i - 1 + m) % m
  {
    Remainder(i + 1, m);
    Remainder(i - 1 + m, m);
  }

  /** The guard visited in position `j` when enabling starts at guard `first` of `n`. */
  function At(first: nat, j: nat, n: nat): (i: nat)
    requires first < n && j <= n
    ensures i < n
  {
    if first + j < n then first + j else first + j - n
  }

  lemma Turn(first: nat, j: nat, n: nat)
    requires first < n && j < n
    ensures Plus1Mod(At(first, j, n), n) == At(first, j + 1, n)
    ensures Minus1Mod(At(first, j + 1, n), n) == At(first, j, n)
  {
  }

  // ---------- well-formedness ----------

  predicate GuardFits(g: Guard, w: World) {
    match g.kind
    case ChanIn(c, _) => c < |w.cells|
    case ChanOut(c, _) => c < |w.cells|
    case Interrupt(l, _) => l < |w.lines|
    case _ => true
  }

  predicate Fits(g: seq<Guard>, w: World) {
    0 < |g| && forall i :: 0 <= i < |g| ==> GuardFits(g[i], w)
  }

  /** The restriction enable_alt insists on: an active output guard is the only active guard. */
  predicate OutputAlone(g: seq<Guard>) {
    forall i, j :: 0 <= i < |g| && 0 <= j < |g| && i != j && g[i].active && g[j].active ==> !g[i].kind.ChanOut?
  }

  predicate SameShape(w: World, w': World) {
    |w.cells| == |w'.cells| && |w.lines| == |w'.lines|
  }

  // ---------- single guards ----------

  /** What enabling one guard leaves: the new world, whether the guard was ready, and *partner. */
  datatype Attempt = Attempt(world: World, ready: bool, partner: Option<Pid>)

  function EnableChannelInput(w: World, p: Pid, c: nat, partner: Option<Pid>): Attempt
    requires c < |w.cells|
  {
    var cell := w.cells[c];
    if cell.waiting.Some? then
      if cell.waiting.value == p then Attempt(w, false, partner)
      else Attempt(w, true, cell.waiting)
    else Attempt(w.(cells := w.cells[c := cell.(waiting := Some(p))]), false, partner)
  }

  function DisableChannelInput(w: World, p: Pid, c: nat, partner: Option<Pid>): Attempt
    requires c < |w.cells|
  {
    var cell := w.cells[c];
    if cell.waiting.Some? then
      if cell.waiting.value != p then Attempt(w, true, cell.waiting)
      else Attempt(w.(cells := w.cells[c := cell.(waiting := None)]), false, partner)
    else Attempt(w, false, partner)
  }

  function EnableChannelOutput(w: World, p: Pid, c: nat, src: nat): Attempt
    requires c < |w.cells|
  {
    Attempt(w.(cells := w.cells[c := Cell(Some(p), Some(Address(p, src)))]), false, w.cells[c].waiting)
  }

  function EnableInterruptChannel(w: World, p: Pid, l: nat, partner: Option<Pid>): Attempt
    requires l < |w.lines|
  {
    if w.lines[l].count == 0 then
      Attempt(w.(lines := w.lines[l := w.lines[l].(waiting := Some(p))]), false, partner)
    else Attempt(w, true, partner)
  }

  function DisableInterruptChannel(w: World, l: nat, partner: Option<Pid>): Attempt
    requires l < |w.lines|
  {
    Attempt(w.(lines := w.lines[l := w.lines[l].(waiting := None)]), w.lines[l].count > 0, partner)
  }

  /** The interrupt channels once an interrupt has been counted in channel `l`. */
  function Interrupted(lines: seq<Line>, l: nat): seq<Line>
    requires l < |lines|
  {
    lines[l := lines[l].(count := lines[l].count + 1)]
  }

  function EnableTimeout(w: World, p: Pid, time: nat, now: nat, partner: Option<Pid>): Attempt {
    if now >= time then Attempt(w, true, partner)
    else Attempt(w.(timers := Insert(w.timers, Entry(time, p))), false, partner)
  }

  function DisableTimeout(w: World, p: Pid, time: nat, now: nat, partner: Option<Pid>): Attempt {
    Attempt(w.(timers := Remove(w.timers, time, p)), now >= time, partner)
  }

  function EnableGuard(w: World, p: Pid, g: Guard, now: nat, partner: Option<Pid>): Attempt
    requires GuardFits(g, w)
  {
    match g.kind
    case ChanIn(c, _) => EnableChannelInput(w, p, c, partner)
    case ChanOut(c, src) => EnableChannelOutput(w, p, c, src)
    case Skip => Attempt(w, true, partner)
    case Timeout(time) => EnableTimeout(w, p, time, now, partner)
    case Interrupt(l, _) => EnableInterruptChannel(w, p, l, partner)
  }

  function DisableGuard(w: World, p: Pid, g: Guard, now: nat, partner: Option<Pid>): Attempt
    requires GuardFits(g, w)
  {
    match g.kind
    case ChanIn(c, _) => DisableChannelInput(w, p, c, partner)
    case ChanOut(_, _) => Attempt(w, true, partner)
    case Skip => Attempt(w, true, partner)
    case Timeout(time) => DisableTimeout(w, p, time, now, partner)
    case Interrupt(l, _) => DisableInterruptChannel(w, l, partner)
  }

  // ---------- the two loops ----------

  /** What enable_alt leaves: `index` and `count` are the last guard visited and its position. */
  datatype Enabled = Enabled(world: World, ready: bool, partner: Option<Pid>, index: nat, count: int)

  function EnableFrom(g: seq<Guard>, p: Pid, clock: seq<nat>, w: World, i: nat, k: nat, partner: Option<Pid>): Enabled
    requires Fits(g, w) && |clock| == |g| && i < |g| && k <= |g|
    decreases |g| - k
  {
    if k == |g| then Enabled(w, false, partner, Minus1Mod(i, |g|), k - 1)
    else if !g[i].active then EnableFrom(g, p, clock, w, Plus1Mod(i, |g|), k + 1, partner)
    else
      var a := EnableGuard(w, p, g[i], clock[k], partner);
      if a.ready then Enabled(a.world, true, a.partner, i, k)
      else EnableFrom(g, p, clock, a.world, Plus1Mod(i, |g|), k + 1, a.partner)
  }

  /** ALT PRI starts at guard 0, fair ALT behind the guard selected last. */
  function FirstGuard(alt: Alternation): nat
    requires 0 < |alt.guards| && (alt.pri || alt.index < |alt.guards|)
  {
    if alt.pri then 0 else Plus1Mod(alt.index, |alt.guards|)
  }

  function EnableAlt(alt: Alternation, p: Pid, clock: seq<nat>, w: World): Enabled
    requires Fits(alt.guards, w) && |clock| == |alt.guards| && (alt.pri || alt.index < |alt.guards|)
  {
    EnableFrom(alt.guards, p, clock, w, FirstGuard(alt), 0, None)
  }

  datatype Walk = Walk(world: World, index: nat, partner: Option<Pid>)

  function DisableFrom(g: seq<Guard>, p: Pid, clock: seq<nat>, w: World, i: nat, k: int,
                       index: nat, partner: Option<Pid>): Walk
    requires Fits(g, w) && |clock| == |g| && i < |g| && k < |g|
    decreases k + 1
  {
    if k < 0 then Walk(w, index, partner)
    else if !g[i].active then DisableFrom(g, p, clock, w, Minus1Mod(i, |g|), k - 1, index, partner)
    else
      var a := DisableGuard(w, p, g[i], clock[k], partner);
      DisableFrom(g, p, clock, a.world, Minus1Mod(i, |g|), k - 1, if a.ready then i else index, a.partner)
  }

  /** What the selected branch moves into the variables of the process. */
  datatype Transfer = Nothing | FromChannel(dest: nat, src: Option<Address>) | FromLine(into: Option<nat>, count: nat)

  datatype Disabled = Disabled(world: World, index: nat, partner: Option<Pid>, transfer: Transfer)

  function Complete(g: Guard, w: World): (World, Transfer)
    requires GuardFits(g, w)
  {
    match g.kind
    case ChanIn(c, dest) =>
      (w.(cells := w.cells[c := w.cells[c].(waiting := None)]), FromChannel(dest, w.cells[c].src))
    case Interrupt(l, into) =>
      (w.(lines := w.lines[l := w.lines[l].(count := 0)]), FromLine(into, w.lines[l].count))
    case _ => (w, Nothing)
  }

  lemma {:induction false} DisableKeepsShape(g: seq<Guard>, p: Pid, clock: seq<nat>, w: World, i: nat, k: int,
                                             index: nat, partner: Option<Pid>)
    requires Fits(g, w) && |clock| == |g| && i < |g| && k < |g| && index < |g|
    ensures var r := DisableFrom(g, p, clock, w, i, k, index, partner);
            SameShape(w, r.world) && r.index < |g|
    decreases k + 1
  {
    if k >= 0 {
      if !g[i].active {
        DisableKeepsShape(g, p, clock, w, Minus1Mod(i, |g|), k - 1, index, partner);
      } else {
        var a := DisableGuard(w, p, g[i], clock[k], partner);
        assert SameShape(w, a.world);
        DisableKeepsShape(g, p, clock, a.world, Minus1Mod(i, |g|), k - 1, if a.ready then i else index, a.partner);
      }
    }
  }

  function DisableAlt(alt: Alternation, p: Pid, clock: seq<nat>, w: World): (d: Disabled)
    requires Fits(alt.guards, w) && |clock| == |alt.guards| && alt.index < |alt.guards| && alt.count < |alt.guards|
    ensures SameShape(w, d.world) && d.index < |alt.guards|
  {
    var r := DisableFrom(alt.guards, p, clock, w, alt.index, alt.count, alt.index, None);
    DisableKeepsShape(alt.guards, p, clock, w, alt.index, alt.count, alt.index, None);
    var (w', transfer) := Complete(alt.guards[r.index], r.world);
    Disabled(w', r.index, r.partner, transfer)
  }
}
