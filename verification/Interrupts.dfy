/** User interrupts against processes that enable, wait on and disable interrupt
    guards: one step is one critical section of sched.c, and the steps of all
    processes and the interrupts interleave in any order. */
module Interrupts {
  import opened Types
  import opened Alt

  /** `received`, `delivered` and `discarded` count interrupts since connection:
      taken by the handler, stored in a destination, and dropped by a guard without one. */
  datatype Wire = Wire(waiting: Option<Pid>, count: nat, connected: bool, received: nat, delivered: nat, discarded: nat)

  /** How far a process is with its ALT: the next position to enable, the last one
      enabled, or the next one to disable and the guard selected so far. */
  datatype Phase = Resting | Enabling(pos: nat) | Committed(last: nat) | Disabling(left: int, selected: nat)

  datatype Proc = Proc(state: PState, guards: seq<Guard>, first: nat, phase: Phase)

  datatype State = State(wires: seq<Wire>, procs: seq<Proc>)

  datatype Event =
    | Raise(line: nat)
    | Wake(proc: Pid)
    | Begin(proc: Pid, first: nat)
    | Enable(proc: Pid, ready: bool)
    | Start(proc: Pid)
    | Disable(proc: Pid, ready: bool)
    | Select(proc: Pid)
    | Code(proc: Pid, guards: seq<Guard>)
    | Connect(line: nat)
    | Disconnect(line: nat)

  /** The guard in position `j` of the process's current round. */
  function GuardAt(pr: Proc, j: nat): (g: Guard)
    requires pr.first < |pr.guards| && j < |pr.guards|
    ensures g in pr.guards
  {
    pr.guards[At(pr.first, j, |pr.guards|)]
  }

  /** The guard is an active one on interrupt channel `l`. */
  predicate On(g: Guard, l: nat) {
    g.active && g.kind.Interrupt? && g.kind.line == l
  }

  /** All active guards are interrupt guards. */
  predicate OnlyInterrupts(g: seq<Guard>) {
    forall i :: 0 <= i < |g| && g[i].active ==> g[i].kind.Interrupt?
  }

  /** Interrupt guards keep to the interrupt channels the process owns. */
  predicate OwnLines(owner: seq<Pid>, p: Pid, g: seq<Guard>) {
    forall i :: 0 <= i < |g| && g[i].kind.Interrupt? ==> g[i].kind.line < |owner| && owner[g[i].kind.line] == p
  }

  // ---------- the steps ----------

  /** readyProcessIfNecessary, apart from the queue. */
  function Readied(pr: Proc): Proc {
    if pr.state in {ENABLING, WAITING} then pr.(state := READY) else pr
  }

  function SetProc(s: State, p: Pid, pr: Proc): State
    requires p < |s.procs|
  {
    s.(procs := s.procs[p := pr])
  }

  function SetWire(s: State, l: nat, w: Wire): State
    requires l < |s.wires|
  {
    s.(wires := s.wires[l := w])
  }

  predicate CanStep(owner: seq<Pid>, s: State, e: Event) {
    match e
    case Raise(l) => l < |s.wires|
    case Wake(p) => p < |s.procs| && !OnlyInterrupts(s.procs[p].guards)
    case Begin(p, first) => p < |s.procs| && s.procs[p].phase.Resting? && first < |s.procs[p].guards|
    case Enable(p, _) => p < |s.procs| && s.procs[p].phase.Enabling?
    case Start(p) => p < |s.procs| && s.procs[p].phase.Committed? && s.procs[p].state == READY
    case Disable(p, _) => p < |s.procs| && s.procs[p].phase.Disabling? && s.procs[p].phase.left >= 0
    case Select(p) => p < |s.procs| && s.procs[p].phase.Disabling? && s.procs[p].phase.left < 0
    case Code(p, g) => p < |s.procs| && s.procs[p].phase.Resting? && OwnLines(owner, p, g)
    case Connect(l) => l < |s.wires| && |owner| == |s.wires| && owner[l] < |s.procs| && s.procs[owner[l]].phase.Resting?
    case Disconnect(l) => l < |s.wires|
  }

  /** user_interrupt_handler */
  function RaiseStep(s: State, l: nat): State
    requires l < |s.wires|
  {
    var w := s.wires[l];
    if !w.connected then s
    else
      var s1 := SetWire(s, l, w.(count := w.count + 1, received := w.received + 1));
      if w.waiting.Some? && w.waiting.value < |s.procs| then SetProc(s1, w.waiting.value, Readied(s.procs[w.waiting.value])) else s1
  }

  /** enable_alt has found the guard in position `k` ready. */
  function Stop(pr: Proc, k: nat): Proc {
    pr.(state := READY, phase := Committed(k))
  }

  /** The next guard of enable_alt, or its end and the decision to wait. */
  function EnableStep(s: State, p: Pid, ready: bool): State
    requires p < |s.procs| && s.procs[p].phase.Enabling? && s.procs[p].first < |s.procs[p].guards|
  {
    var pr := s.procs[p];
    var k, n := pr.phase.pos, |pr.guards|;
    if k >= n then
      SetProc(s, p, pr.(phase := Committed(n - 1), state := if pr.state == ENABLING then WAITING else pr.state))
    else
      var g := GuardAt(pr, k);
      var on := pr.(phase := Enabling(k + 1));
      if !g.active then SetProc(s, p, on)
      else match g.kind
        case Interrupt(l, _) =>
          if l >= |s.wires| then s
          else if s.wires[l].count == 0 then SetProc(SetWire(s, l, s.wires[l].(waiting := Some(p))), p, on)
          else SetProc(s, p, Stop(pr, k))
        case _ => SetProc(s, p, if ready then Stop(pr, k) else on)
  }

  function DisableStep(s: State, p: Pid, ready: bool): State
    requires p < |s.procs| && s.procs[p].phase.Disabling? && s.procs[p].first < |s.procs[p].guards|
    requires 0 <= s.procs[p].phase.left < |s.procs[p].guards|
  {
    var pr := s.procs[p];
    var k, i := pr.phase.left, At(pr.first, pr.phase.left, |pr.guards|);
    var g := pr.guards[i];
    var skip, take := pr.(phase := Disabling(k - 1, pr.phase.selected)), pr.(phase := Disabling(k - 1, i));
    if !g.active then SetProc(s, p, skip)
    else match g.kind
      case Interrupt(l, _) =>
        if l >= |s.wires| then s
        else SetProc(SetWire(s, l, s.wires[l].(waiting := None)), p, if s.wires[l].count > 0 then take else skip)
      case _ => SetProc(s, p, if ready then take else skip)
  }

  /** The selected branch of disable_alt. */
  function SelectStep(s: State, p: Pid): State
    requires p < |s.procs| && s.procs[p].phase.Disabling? && s.procs[p].phase.selected < |s.procs[p].guards|
  {
    var pr := s.procs[p];
    var s1 := SetProc(s, p, pr.(state := QUIESCENT, phase := Resting));
    match pr.guards[pr.phase.selected].kind
    case Interrupt(l, into) =>
      if l >= |s.wires| then s1
      else
        var w := s.wires[l];
        SetWire(s1, l, if into.Some? then w.(delivered := w.delivered + w.count, count := 0)
                       else w.(discarded := w.discarded + w.count, count := 0))
    case _ => s1
  }

  function Step(owner: seq<Pid>, s: State, e: Event): State
    requires CanStep(owner, s, e) && CursorsOk(s)
  {
    match e
    case Raise(l) => RaiseStep(s, l)
    case Wake(p) => SetProc(s, p, Readied(s.procs[p]))
    case Begin(p, first) => SetProc(s, p, s.procs[p].(state := ENABLING, first := first, phase := Enabling(0)))
    case Enable(p, ready) => EnableStep(s, p, ready)
    case Start(p) => SetProc(s, p, s.procs[p].(phase := Disabling(s.procs[p].phase.last, At(s.procs[p].first, s.procs[p].phase.last, |s.procs[p].guards|))))
    case Disable(p, ready) => DisableStep(s, p, ready)
    case Select(p) => SelectStep(s, p)
    case Code(p, g) => SetProc(s, p, s.procs[p].(guards := g))
    case Connect(l) => SetWire(s, l, Wire(None, 0, true, 0, 0, 0))
    case Disconnect(l) => SetWire(s, l, s.wires[l].(connected := false))
  }

  // ---------- the invariant ----------

  /** The process is where its phase says, inside its ALT. */
  predicate CursorOk(pr: Proc) {
    match pr.phase
    case Resting => pr.state == QUIESCENT
    case Enabling(k) => pr.state in {ENABLING, READY} && pr.first < |pr.guards| && k <= |pr.guards|
    case Committed(k) => pr.first < |pr.guards| && k < |pr.guards| && (pr.state == READY || (pr.state == WAITING && k == |pr.guards| - 1))
    case Disabling(k, i) => pr.state == READY && pr.first < |pr.guards| && k < |pr.guards| && i < |pr.guards|
  }

  predicate CursorsOk(s: State) {
    forall p {:trigger s.procs[p]} :: 0 <= p < |s.procs| ==> CursorOk(s.procs[p])
  }

  /** How many positions of the current round name the process in their channels. */
  function Reached(pr: Proc): int {
    match pr.phase
    case Resting => 0
    case Enabling(k) => k
    case Committed(k) => k + 1
    case Disabling(k, _) => k + 1
  }

  /** The process has a guard on `l` among those positions. */
  predicate Listens(pr: Proc, l: nat)
    requires CursorOk(pr)
  {
    exists j :: 0 <= j < Reached(pr) && j < |pr.guards| && On(GuardAt(pr, j), l)
  }

  /** Interrupts are conserved, and a process that has enabled the channel and
      neither found nor been found by an interrupt is named in it. */
  predicate WireOk(owner: seq<Pid>, s: State, l: nat)
    requires l < |s.wires| == |owner| && owner[l] < |s.procs| && CursorOk(s.procs[owner[l]])
  {
    var w, p := s.wires[l], owner[l];
    && w.received == w.delivered + w.discarded + w.count
    && (w.waiting.Some? ==> w.waiting.value == p && Listens(s.procs[p], l))
    && (s.procs[p].state in {ENABLING, WAITING} && Listens(s.procs[p], l) ==> w.waiting.Some? && w.count == 0)
  }

  /** The guard selects an interrupt channel with pending interrupts. */
  predicate Pending(s: State, g: Guard) {
    g.active && g.kind.Interrupt? && g.kind.line < |s.wires| && s.wires[g.kind.line].count > 0
  }

  /** A guard the process has still to disable, or the one it has selected, has interrupts pending. */
  predicate HasPending(s: State, pr: Proc)
    requires CursorOk(pr)
  {
    || (exists j :: 0 <= j < Reached(pr) && j < |pr.guards| && Pending(s, GuardAt(pr, j)))
    || (pr.phase.Disabling? && Pending(s, pr.guards[pr.phase.selected]))
  }

  /** A process readied by interrupts alone has one to deliver. */
  predicate ReadyOk(s: State, pr: Proc)
    requires CursorOk(pr)
  {
    pr.state == READY && OnlyInterrupts(pr.guards) ==> HasPending(s, pr)
  }

  ghost predicate Inv(owner: seq<Pid>, s: State) {
    && |owner| == |s.wires| && CursorsOk(s)
    && (forall p :: 0 <= p < |s.procs| ==> OwnLines(owner, p, s.procs[p].guards) && ReadyOk(s, s.procs[p]))
    && (forall l :: 0 <= l < |s.wires| ==> owner[l] < |s.procs| && WireOk(owner, s, l))
  }

  // ---------- the steps are those of enabling and disabling an ALT ----------

  /** The interrupt channels as enable_alt and disable_alt see them. */
  function WorldOf(s: State): (w: World)
    ensures w.cells == [] && w.timers == [] && |w.lines| == |s.wires|
    ensures forall l :: 0 <= l < |s.wires| ==> w.lines[l] == Line(s.wires[l].waiting, s.wires[l].count)
  {
    World([], seq(|s.wires|, l requires 0 <= l < |s.wires| => Line(s.wires[l].waiting, s.wires[l].count)), [])
  }

  /** An interrupt may come at any moment. On a connected channel it is counted, and
      readies the process named in the channel. */
  lemma RaiseIsCounted(owner: seq<Pid>, s: State, l: nat)
    requires CursorsOk(s)
    requires l < |s.wires| && s.wires[l].connected && (s.wires[l].waiting.Some? ==> s.wires[l].waiting.value < |s.procs|)
    ensures CanStep(owner, s, Raise(l)) && CanStep(owner, s, Disconnect(l))
    ensures var s' := Step(owner, s, Raise(l));
            && WorldOf(s').lines == Interrupted(WorldOf(s).lines, l)
            && s'.wires == s.wires[l := s.wires[l].(count := s.wires[l].count + 1, received := s.wires[l].received + 1)]
            && (s.wires[l].waiting.Some? ==> var p := s.wires[l].waiting.value;
                  s'.procs == s.procs[p := Readied(s.procs[p])] && s'.procs[p].state !in {ENABLING, WAITING})
  {
  }

  /** Connecting a channel empties it and starts its counts afresh; disconnecting it
      keeps what is pending, and from then on its interrupts change nothing. */
  lemma ConnectAndDisconnect(owner: seq<Pid>, s: State, l: nat)
    requires CursorsOk(s) && l < |s.wires|
    ensures !s.wires[l].connected ==> Step(owner, s, Raise(l)) == s
    ensures Step(owner, s, Disconnect(l)) == s.(wires := s.wires[l := s.wires[l].(connected := false)])
    ensures CanStep(owner, s, Connect(l)) ==>
              Step(owner, s, Connect(l)) == s.(wires := s.wires[l := Wire(None, 0, true, 0, 0, 0)])
  {
  }

  lemma EnableIsAlt(s: State, p: Pid, ready: bool)
    requires p < |s.procs| && CursorOk(s.procs[p]) && s.procs[p].phase.Enabling? && s.procs[p].phase.pos < |s.procs[p].guards|
    requires var g := GuardAt(s.procs[p], s.procs[p].phase.pos); g.active && g.kind.Interrupt? && g.kind.line < |s.wires|
    ensures var k, g, s' := s.procs[p].phase.pos, GuardAt(s.procs[p], s.procs[p].phase.pos), EnableStep(s, p, ready);
            var a := EnableGuard(WorldOf(s), p, g, 0, None);
            WorldOf(s') == a.world && s'.procs[p].phase == if a.ready then Committed(k) else Enabling(k + 1)
  {
  }

  lemma DisableIsAlt(s: State, p: Pid, ready: bool)
    requires p < |s.procs| && CursorOk(s.procs[p]) && s.procs[p].phase.Disabling? && s.procs[p].phase.left >= 0
    requires var g := GuardAt(s.procs[p], s.procs[p].phase.left); g.active && g.kind.Interrupt? && g.kind.line < |s.wires|
    ensures var pr, s' := s.procs[p], DisableStep(s, p, ready);
            var a := DisableGuard(WorldOf(s), p, GuardAt(pr, pr.phase.left), 0, None);
            && WorldOf(s') == a.world
            && s'.procs[p].phase.selected == if a.ready then At(pr.first, pr.phase.left, |pr.guards|) else pr.phase.selected
  {
  }

  /** What the selected branch delivers or drops is what the transfer of disable_alt moves. */
  lemma SelectIsAlt(s: State, p: Pid)
    requires p < |s.procs| && CursorOk(s.procs[p]) && s.procs[p].phase.Disabling?
    requires var g := s.procs[p].guards[s.procs[p].phase.selected]; g.kind.Interrupt? && g.kind.line < |s.wires|
    ensures var g, s' := s.procs[p].guards[s.procs[p].phase.selected], SelectStep(s, p);
            var w, w' := s.wires[g.kind.line], s'.wires[g.kind.line];
            && Complete(g, WorldOf(s)) == (WorldOf(s'), FromLine(g.kind.into, w.count))
            && w'.delivered - w.delivered == (if g.kind.into.Some? then w.count else 0)
            && w'.discarded - w.discarded == (if g.kind.into.Some? then 0 else w.count)
  {
    var g := s.procs[p].guards[s.procs[p].phase.selected];
    assert WorldOf(SelectStep(s, p)).lines == Complete(g, WorldOf(s)).0.lines;
  }

  // ---------- every step keeps the invariant ----------

  lemma TablesKept(owner: seq<Pid>, s: State, e: Event)
    requires CursorsOk(s) && CanStep(owner, s, e)
    ensures |Step(owner, s, e).wires| == |s.wires| && |Step(owner, s, e).procs| == |s.procs|
  {
  }

  lemma CursorKept(owner: seq<Pid>, s: State, e: Event, p: Pid)
    requires Inv(owner, s) && CanStep(owner, s, e) && p < |s.procs| == |Step(owner, s, e).procs|
    ensures CursorOk(Step(owner, s, e).procs[p]) && OwnLines(owner, p, Step(owner, s, e).procs[p].guards)
  {
    assert CursorOk(s.procs[p]) && OwnLines(owner, p, s.procs[p].guards);
  }

  lemma CursorsKept(owner: seq<Pid>, s: State, e: Event)
    requires Inv(owner, s) && CanStep(owner, s, e)
    ensures var s' := Step(owner, s, e);
            && |s'.wires| == |s.wires| && |s'.procs| == |s.procs| && CursorsOk(s')
            && forall p :: 0 <= p < |s.procs| ==> OwnLines(owner, p, s'.procs[p].guards)
  {
    TablesKept(owner, s, e);
    var s' := Step(owner, s, e);
    forall p {:trigger s'.procs[p]} | 0 <= p < |s.procs|
      ensures CursorOk(s'.procs[p]) && OwnLines(owner, p, s'.procs[p].guards)
    {
      CursorKept(owner, s, e, p);
    }
  }

  /** Reaching one position more adds the guard in it. */
  lemma ListensNext(pr: Proc, pr': Proc, l: nat)
    requires CursorOk(pr) && CursorOk(pr') && pr.guards == pr'.guards && pr.first == pr'.first < |pr.guards|
    requires 0 <= Reached(pr) < |pr.guards| && Reached(pr') == Reached(pr) + 1
    ensures Listens(pr', l) <==> Listens(pr, l) || On(GuardAt(pr, Reached(pr)), l)
  {
    if Listens(pr', l) {
      var j :| 0 <= j < Reached(pr') && j < |pr'.guards| && On(GuardAt(pr', j), l);
      assert On(GuardAt(pr, j), l);
    }
    if Listens(pr, l) {
      var j :| 0 <= j < Reached(pr) && j < |pr.guards| && On(GuardAt(pr, j), l);
      assert On(GuardAt(pr', j), l);
    }
    assert GuardAt(pr', Reached(pr)) == GuardAt(pr, Reached(pr));
  }

  lemma ListensSame(pr: Proc, pr': Proc, l: nat)
    requires CursorOk(pr) && CursorOk(pr') && pr.guards == pr'.guards && Reached(pr') == Reached(pr)
    requires Reached(pr) > 0 ==> pr.first == pr'.first
    ensures Listens(pr', l) <==> Listens(pr, l)
  {
    if Listens(pr', l) {
      var j :| 0 <= j < Reached(pr') && j < |pr'.guards| && On(GuardAt(pr', j), l);
      assert On(GuardAt(pr, j), l);
    }
    if Listens(pr, l) {
      var j :| 0 <= j < Reached(pr) && j < |pr.guards| && On(GuardAt(pr, j), l);
      assert On(GuardAt(pr', j), l);
    }
  }

  lemma EnableLeavesOthers(owner: seq<Pid>, s: State, p: Pid, ready: bool, l: nat)
    requires Inv(owner, s) && CanStep(owner, s, Enable(p, ready)) && l < |s.wires| && owner[l] != p && CursorOk(s.procs[p])
    ensures var s' := EnableStep(s, p, ready);
            |s'.wires| == |s.wires| && |s'.procs| == |s.procs| && s'.wires[l] == s.wires[l] && s'.procs[owner[l]] == s.procs[owner[l]]
  {
  }

  /** What a step of enabling does to a channel of the process and to the process. */
  lemma EnableOwn(owner: seq<Pid>, s: State, p: Pid, ready: bool, l: nat)
    requires Inv(owner, s) && CanStep(owner, s, Enable(p, ready)) && l < |s.wires| && CursorOk(s.procs[p])
    ensures var s' := EnableStep(s, p, ready);
            && |s'.wires| == |s.wires| && |s'.procs| == |s.procs| && CursorOk(s'.procs[p])
            && EnableMoved(s.procs[p], s'.procs[p], s.wires[l], s'.wires[l], p, l)
  {
    assert OwnLines(owner, p, s.procs[p].guards);
  }

  predicate EnableMoved(pr: Proc, pr': Proc, w: Wire, w': Wire, p: Pid, l: nat)
    requires CursorOk(pr) && pr.phase.Enabling?
  {
    var k := pr.phase.pos;
    && pr'.guards == pr.guards && pr'.first == pr.first
    && if k == |pr.guards| then
         w' == w && pr'.phase == Committed(k - 1) && pr'.state == (if pr.state == ENABLING then WAITING else pr.state)
       else if pr'.state == READY && pr'.phase == Committed(k) then w' == w
       else
         && pr'.phase == Enabling(k + 1) && pr'.state == pr.state
         && (On(GuardAt(pr, k), l) ==> w.count == 0)
         && w' == if On(GuardAt(pr, k), l) then w.(waiting := Some(p)) else w
  }

  lemma EnableKeepsWire(owner: seq<Pid>, s: State, p: Pid, ready: bool, l: nat)
    requires Inv(owner, s) && CanStep(owner, s, Enable(p, ready)) && l < |s.wires|
    requires var s' := EnableStep(s, p, ready); |s'.wires| == |s.wires| && CursorsOk(s') && |s'.procs| == |s.procs|
    ensures WireOk(owner, EnableStep(s, p, ready), l)
  {
    assert WireOk(owner, s, l);
    if p != owner[l] {
      EnableLeavesOthers(owner, s, p, ready, l);
    } else {
      EnableOwn(owner, s, p, ready, l);
      var pr, pr' := s.procs[p], EnableStep(s, p, ready).procs[p];
      if Reached(pr) < Reached(pr') { ListensNext(pr, pr', l); } else { ListensSame(pr, pr', l); }
    }
  }

  lemma DisableLeavesOthers(owner: seq<Pid>, s: State, p: Pid, ready: bool, l: nat)
    requires Inv(owner, s) && CanStep(owner, s, Disable(p, ready)) && l < |s.wires| && owner[l] != p && CursorOk(s.procs[p])
    ensures var s' := DisableStep(s, p, ready);
            |s'.wires| == |s.wires| && |s'.procs| == |s.procs| && s'.wires[l] == s.wires[l] && s'.procs[owner[l]] == s.procs[owner[l]]
  {
  }

  lemma DisableOwn(owner: seq<Pid>, s: State, p: Pid, ready: bool, l: nat)
    requires Inv(owner, s) && CanStep(owner, s, Disable(p, ready)) && l < |s.wires| && CursorOk(s.procs[p])
    ensures var s', pr := DisableStep(s, p, ready), s.procs[p];
            && |s'.wires| == |s.wires| && |s'.procs| == |s.procs| && CursorOk(s'.procs[p])
            && s'.procs[p].guards == pr.guards && s'.procs[p].first == pr.first && s'.procs[p].state == READY
            && s'.procs[p].phase.Disabling? && s'.procs[p].phase.left == pr.phase.left - 1
            && s'.wires[l] == if On(GuardAt(pr, pr.phase.left), l) then s.wires[l].(waiting := None) else s.wires[l]
  {
  }

  lemma DisableKeepsWire(owner: seq<Pid>, s: State, p: Pid, ready: bool, l: nat)
    requires Inv(owner, s) && CanStep(owner, s, Disable(p, ready)) && l < |s.wires|
    requires var s' := DisableStep(s, p, ready); |s'.wires| == |s.wires| && CursorsOk(s') && |s'.procs| == |s.procs|
    ensures WireOk(owner, DisableStep(s, p, ready), l)
  {
    assert WireOk(owner, s, l);
    if p != owner[l] {
      DisableLeavesOthers(owner, s, p, ready, l);
    } else {
      DisableOwn(owner, s, p, ready, l);
      ListensNext(DisableStep(s, p, ready).procs[p], s.procs[p], l);
    }
  }

  lemma RestKeepsWire(owner: seq<Pid>, s: State, e: Event, l: nat)
    requires Inv(owner, s) && CanStep(owner, s, e) && l < |s.wires| && !e.Enable? && !e.Disable?
    requires var s' := Step(owner, s, e); |s'.wires| == |s.wires| && CursorsOk(s') && |s'.procs| == |s.procs|
    ensures WireOk(owner, Step(owner, s, e), l)
  {
    assert WireOk(owner, s, l);
    var pr, pr' := s.procs[owner[l]], Step(owner, s, e).procs[owner[l]];
    if (e.Code? || e.Select?) && e.proc == owner[l] {
      assert !Listens(pr', l);
      if e.Select? {
        SelectFindsNoName(owner, s, e.proc, l);
      }
    } else if pr != pr' {
      ListensSame(pr, pr', l);
    }
  }

  /** When a process selects its branch no interrupt channel names it any more. */
  lemma SelectFindsNoName(owner: seq<Pid>, s: State, p: Pid, l: nat)
    requires Inv(owner, s) && CanStep(owner, s, Select(p)) && l < |s.wires| && owner[l] == p
    ensures s.wires[l].waiting == None
  {
  }

  lemma WireKept(owner: seq<Pid>, s: State, e: Event, l: nat)
    requires Inv(owner, s) && CanStep(owner, s, e) && l < |s.wires|
    requires var s' := Step(owner, s, e); |s'.wires| == |s.wires| && CursorsOk(s') && |s'.procs| == |s.procs|
    ensures WireOk(owner, Step(owner, s, e), l)
  {
    match e
    case Enable(p, ready) => EnableKeepsWire(owner, s, p, ready, l);
    case Disable(p, ready) => DisableKeepsWire(owner, s, p, ready, l);
    case _ => RestKeepsWire(owner, s, e, l);
  }

  // ---------- what is selected is pending ----------

  /** Counts of the channels of processes that are not resting or selecting only grow. */
  lemma PendingKept(owner: seq<Pid>, s: State, e: Event, p: Pid, i: nat)
    requires Inv(owner, s) && CanStep(owner, s, e) && p < |s.procs| && i < |s.procs[p].guards| && Pending(s, s.procs[p].guards[i])
    requires !s.procs[p].phase.Resting? && e != Select(p)
    ensures Pending(Step(owner, s, e), s.procs[p].guards[i])
  {
    var l := s.procs[p].guards[i].kind.line;
    assert OwnLines(owner, p, s.procs[p].guards) && owner[l] == p;
    if e.Select? {
      assert OwnLines(owner, e.proc, s.procs[e.proc].guards);
      assert CursorOk(s.procs[e.proc]);
    }
  }

  lemma HasPendingKept(owner: seq<Pid>, s: State, e: Event, p: Pid)
    requires Inv(owner, s) && CanStep(owner, s, e) && p < |s.procs| && s.procs[p].state == READY && e != Select(p)
    requires CursorOk(s.procs[p]) && HasPending(s, s.procs[p])
    ensures HasPending(Step(owner, s, e), s.procs[p])
  {
    var pr := s.procs[p];
    if j :| 0 <= j < Reached(pr) && j < |pr.guards| && Pending(s, GuardAt(pr, j)) {
      PendingKept(owner, s, e, p, At(pr.first, j, |pr.guards|));
      assert Pending(Step(owner, s, e), GuardAt(pr, j));
    } else {
      PendingKept(owner, s, e, p, pr.phase.selected);
    }
  }

  /** The process goes on to the next position, or to disabling, with what was pending. */
  lemma PendingAhead(s: State, pr: Proc, pr': Proc)
    requires CursorOk(pr) && CursorOk(pr') && HasPending(s, pr) && pr'.guards == pr.guards && pr'.first == pr.first
    requires Reached(pr) <= Reached(pr') && (pr.phase.Disabling? ==> pr'.phase == pr.phase)
    ensures HasPending(s, pr')
  {
    if j :| 0 <= j < Reached(pr) && j < |pr.guards| && Pending(s, GuardAt(pr, j)) {
      assert Pending(s, GuardAt(pr', j));
    }
  }

  /** Disabling a guard with interrupts pending selects it. */
  lemma PendingBehind(s: State, pr: Proc, pr': Proc)
    requires CursorOk(pr) && CursorOk(pr') && HasPending(s, pr) && pr'.guards == pr.guards && pr'.first == pr.first
    requires pr.phase.Disabling? && pr.phase.left >= 0
    requires var k := pr.phase.left;
             pr'.phase == Disabling(k - 1, if Pending(s, GuardAt(pr, k)) then At(pr.first, k, |pr.guards|) else pr.phase.selected)
    ensures HasPending(s, pr')
  {
    var k := pr.phase.left;
    if !Pending(s, GuardAt(pr, k)) {
      if j :| 0 <= j < Reached(pr) && j < |pr.guards| && Pending(s, GuardAt(pr, j)) {
        assert Pending(s, GuardAt(pr', j));
      }
    }
  }

  lemma DisableSelects(owner: seq<Pid>, s: State, p: Pid, ready: bool)
    requires Inv(owner, s) && CanStep(owner, s, Disable(p, ready)) && OnlyInterrupts(s.procs[p].guards) && CursorOk(s.procs[p])
    ensures var s', pr := DisableStep(s, p, ready), s.procs[p]; var k := pr.phase.left;
            |s'.procs| == |s.procs| &&
            s'.procs[p] == pr.(phase := Disabling(k - 1, if Pending(s', GuardAt(pr, k)) then At(pr.first, k, |pr.guards|) else pr.phase.selected))
  {
  }

  /** A ready process still has something pending. */
  lemma StillPending(owner: seq<Pid>, s: State, e: Event, p: Pid)
    requires Inv(owner, s) && CanStep(owner, s, e) && p < |s.procs| && s.procs[p].state == READY && e != Select(p)
    requires OnlyInterrupts(s.procs[p].guards)
    requires CursorsOk(Step(owner, s, e)) && |Step(owner, s, e).procs| == |s.procs|
    ensures ReadyOk(Step(owner, s, e), Step(owner, s, e).procs[p])
  {
    var pr, s' := s.procs[p], Step(owner, s, e);
    assert ReadyOk(s, pr) && CursorOk(pr) && CursorOk(s'.procs[p]);
    HasPendingKept(owner, s, e, p);
    if e.Disable? && e.proc == p {
      DisableSelects(owner, s, p, e.ready);
      PendingBehind(s', pr, s'.procs[p]);
    } else {
      StaysAhead(owner, s, e, p);
      PendingAhead(s', pr, s'.procs[p]);
    }
  }

  lemma StaysAhead(owner: seq<Pid>, s: State, e: Event, p: Pid)
    requires Inv(owner, s) && CanStep(owner, s, e) && p < |s.procs| && s.procs[p].state == READY && e != Select(p)
    requires !(e.Disable? && e.proc == p) && CursorOk(s.procs[p])
    requires CursorsOk(Step(owner, s, e)) && |Step(owner, s, e).procs| == |s.procs|
    ensures var pr, pr' := s.procs[p], Step(owner, s, e).procs[p];
            && pr'.guards == pr.guards && pr'.first == pr.first && CursorOk(pr')
            && Reached(pr) <= Reached(pr') && (pr.phase.Disabling? ==> pr'.phase == pr.phase)
  {
  }

  lemma ReadyKept(owner: seq<Pid>, s: State, e: Event, p: Pid)
    requires Inv(owner, s) && CanStep(owner, s, e) && p < |s.procs|
    ensures CursorsOk(Step(owner, s, e)) && |Step(owner, s, e).procs| == |s.procs|
    ensures ReadyOk(Step(owner, s, e), Step(owner, s, e).procs[p])
  {
    CursorsKept(owner, s, e);
    var pr, s' := s.procs[p], Step(owner, s, e);
    var pr' := s'.procs[p];
    assert CursorOk(pr) && CursorOk(pr');
    if pr'.state == READY && OnlyInterrupts(pr'.guards) {
      if pr.state == READY {
        StillPending(owner, s, e, p);
      } else {
        BecomesReady(owner, s, e, p);
      }
    }
  }

  lemma BecomesReady(owner: seq<Pid>, s: State, e: Event, p: Pid)
    requires Inv(owner, s) && CanStep(owner, s, e) && p < |s.procs|
    requires CursorsOk(Step(owner, s, e)) && |Step(owner, s, e).procs| == |s.procs|
    requires s.procs[p].state != READY && OnlyInterrupts(s.procs[p].guards)
    ensures ReadyOk(Step(owner, s, e), Step(owner, s, e).procs[p])
  {
    var pr, s' := s.procs[p], Step(owner, s, e);
    var pr' := s'.procs[p];
    assert CursorOk(pr) && CursorOk(pr');
    match e
    case Raise(l) =>
      assert WireOk(owner, s, l);
      if pr'.state == READY {
        var j :| 0 <= j < Reached(pr) && j < |pr.guards| && On(GuardAt(pr, j), l);
        assert Pending(s', GuardAt(pr', j));
      }
    case Enable(_, ready) =>
      if pr'.state == READY {
        assert Pending(s', GuardAt(pr', pr.phase.pos));
      }
    case _ =>
  }

  /** Every step keeps the invariant. */
  lemma StepKeepsInv(owner: seq<Pid>, s: State, e: Event)
    requires Inv(owner, s) && CanStep(owner, s, e)
    ensures Inv(owner, Step(owner, s, e))
  {
    CursorsKept(owner, s, e);
    var s' := Step(owner, s, e);
    forall l | 0 <= l < |s'.wires| ensures owner[l] < |s'.procs| && WireOk(owner, s', l) {
      WireKept(owner, s, e, l);
    }
    forall p | 0 <= p < |s'.procs| ensures ReadyOk(s', s'.procs[p]) {
      ReadyKept(owner, s, e, p);
    }
  }

  // ---------- runs ----------

  /** Nothing is enabled and no interrupt has been received. */
  predicate Initial(owner: seq<Pid>, s: State) {
    && |owner| == |s.wires| && (forall l :: 0 <= l < |owner| ==> owner[l] < |s.procs|)
    && (forall p :: 0 <= p < |s.procs| ==> s.procs[p].state == QUIESCENT && s.procs[p].phase == Resting && s.procs[p].guards == [])
    && (forall l :: 0 <= l < |s.wires| ==> s.wires[l] == Wire(None, 0, false, 0, 0, 0))
  }

  ghost predicate IsRun(owner: seq<Pid>, s: State, es: seq<Event>)
    decreases |es|
  {
    es != [] ==> CursorsOk(s) && CanStep(owner, s, es[0]) && IsRun(owner, Step(owner, s, es[0]), es[1..])
  }

  ghost function After(owner: seq<Pid>, s: State, es: seq<Event>): State
    requires IsRun(owner, s, es)
    decreases |es|
  {
    if es == [] then s else After(owner, Step(owner, s, es[0]), es[1..])
  }

  lemma InvAtStart(owner: seq<Pid>, s: State)
    requires Initial(owner, s)
    ensures Inv(owner, s)
  {
  }

  lemma {:induction false} RunKeepsInv(owner: seq<Pid>, s: State, es: seq<Event>)
    requires Inv(owner, s) && IsRun(owner, s, es)
    ensures Inv(owner, After(owner, s, es))
    decreases |es|
  {
    if es != [] {
      StepKeepsInv(owner, s, es[0]);
      RunKeepsInv(owner, Step(owner, s, es[0]), es[1..]);
    }
  }

  /** Interrupts are conserved: on every channel, at every moment of every run,
      those received since connection have been delivered, dropped by a guard
      without a destination, or are pending. */
  lemma Conserved(owner: seq<Pid>, s: State, es: seq<Event>, l: nat)
    requires Initial(owner, s) && IsRun(owner, s, es) && l < |s.wires|
    ensures var s' := After(owner, s, es);
            |s'.wires| == |s.wires| && var w := s'.wires[l]; w.received == w.delivered + w.discarded + w.count
  {
    InvAtStart(owner, s);
    RunKeepsInv(owner, s, es);
    SameTables(owner, s, es);
    assert WireOk(owner, After(owner, s, es), l);
  }

  lemma {:induction false} SameTables(owner: seq<Pid>, s: State, es: seq<Event>)
    requires Inv(owner, s) && IsRun(owner, s, es)
    ensures |After(owner, s, es).wires| == |s.wires| && |After(owner, s, es).procs| == |s.procs|
    decreases |es|
  {
    if es != [] {
      StepKeepsInv(owner, s, es[0]);
      CursorsKept(owner, s, es[0]);
      SameTables(owner, Step(owner, s, es[0]), es[1..]);
    }
  }

  /** No process waits on an enabled interrupt channel with an interrupt pending,
      and a process that waits is named in each of its interrupt channels. */
  lemma WaitingHasNone(owner: seq<Pid>, s: State, p: Pid, i: nat)
    requires Inv(owner, s) && p < |s.procs| && s.procs[p].state == WAITING
    requires i < |s.procs[p].guards| && s.procs[p].guards[i].active && s.procs[p].guards[i].kind.Interrupt?
    ensures var l := s.procs[p].guards[i].kind.line;
            l < |s.wires| && s.wires[l].count == 0 && s.wires[l].waiting == Some(p)
  {
    var pr := s.procs[p];
    var l, n := pr.guards[i].kind.line, |pr.guards|;
    assert CursorOk(pr) && OwnLines(owner, p, pr.guards) && WireOk(owner, s, l);
    var j := if pr.first <= i then i - pr.first else i + n - pr.first;
    assert At(pr.first, j, n) == i && On(GuardAt(pr, j), l);
  }

  /** A process with interrupt guards alone always selects one with interrupts to deliver. */
  lemma SelectsPending(owner: seq<Pid>, s: State, p: Pid)
    requires Inv(owner, s) && CanStep(owner, s, Select(p)) && OnlyInterrupts(s.procs[p].guards)
    ensures s.procs[p].phase.selected < |s.procs[p].guards| && Pending(s, s.procs[p].guards[s.procs[p].phase.selected])
  {
  }

  /** Every interrupt guard has a destination. */
  predicate Destined(g: seq<Guard>) {
    forall i :: 0 <= i < |g| && g[i].kind.Interrupt? ==> g[i].kind.into.Some?
  }

  predicate AllDestined(s: State) {
    (forall p :: 0 <= p < |s.procs| ==> Destined(s.procs[p].guards)) && forall l :: 0 <= l < |s.wires| ==> s.wires[l].discarded == 0
  }

  lemma StepDestined(owner: seq<Pid>, s: State, e: Event)
    requires Inv(owner, s) && CanStep(owner, s, e) && AllDestined(s) && (e.Code? ==> Destined(e.guards))
    ensures AllDestined(Step(owner, s, e))
  {
    var s' := Step(owner, s, e);
    forall p | 0 <= p < |s'.procs| ensures Destined(s'.procs[p].guards) {
      assert Destined(s.procs[p].guards);
    }
    if e.Select? {
      assert CursorOk(s.procs[e.proc]) && Destined(s.procs[e.proc].guards);
    }
  }

  /** With destinations everywhere, what has not been delivered is pending. */
  lemma {:induction false} NoneDropped(owner: seq<Pid>, s: State, es: seq<Event>, l: nat)
    requires Inv(owner, s) && AllDestined(s) && IsRun(owner, s, es) && l < |s.wires|
    requires forall e :: e in es && e.Code? ==> Destined(e.guards)
    ensures var s' := After(owner, s, es);
            |s'.wires| == |s.wires| && s'.wires[l].received == s'.wires[l].delivered + s'.wires[l].count
    decreases |es|
  {
    if es == [] {
      assert WireOk(owner, s, l);
    } else {
      assert es[0] in es;
      StepDestined(owner, s, es[0]);
      StepKeepsInv(owner, s, es[0]);
      CursorsKept(owner, s, es[0]);
      NoneDropped(owner, Step(owner, s, es[0]), es[1..], l);
    }
  }
}
