/** A process whose ALT is not interleaved with anything enables and disables it as
    enable_alt and disable_alt do, and an interrupt reaches the process waiting for it. */
module InterruptAlt {
  import opened Types
  import opened Alt
  import opened Interrupts

  /** The world the process sees, of which only the interrupt channels matter to it. */
  predicate Sees(s: State, p: Pid, w: World) {
    && p < |s.procs| && CursorsOk(s) && w.lines == WorldOf(s).lines
    && Fits(s.procs[p].guards, w) && OnlyInterrupts(s.procs[p].guards)
  }

  /** All these events are steps of process `p`. */
  predicate StepsOf(es: seq<Event>, p: Pid) {
    forall i :: 0 <= i < |es| ==> !es[i].Raise? && !es[i].Connect? && !es[i].Disconnect? && es[i].proc == p
  }

  /** `s'` is `s` with process `p` now `pr`, and the interrupt channels naming whom they name in `lines`. */
  predicate Became(s: State, s': State, p: Pid, pr: Proc, lines: seq<Line>)
    requires p < |s.procs|
  {
    && s'.procs == s.procs[p := pr] && |lines| == |s'.wires| == |s.wires|
    && forall l :: 0 <= l < |s.wires| ==> lines[l].count == s.wires[l].count && s'.wires[l] == s.wires[l].(waiting := lines[l].waiting)
  }

  lemma BecameTwice(s: State, s1: State, s2: State, p: Pid, pr1: Proc, pr2: Proc, lines1: seq<Line>, lines2: seq<Line>)
    requires p < |s.procs| && Became(s, s1, p, pr1, lines1) && p < |s1.procs| && Became(s1, s2, p, pr2, lines2)
    ensures Became(s, s2, p, pr2, lines2)
  {
    assert s.procs[p := pr1][p := pr2] == s.procs[p := pr2];
  }

  /** One step more in front. */
  lemma FirstStep(owner: seq<Pid>, s: State, e: Event, es: seq<Event>)
    requires CursorsOk(s) && CanStep(owner, s, e) && IsRun(owner, Step(owner, s, e), es)
    ensures IsRun(owner, s, [e] + es) && After(owner, s, [e] + es) == After(owner, Step(owner, s, e), es)
  {
    assert ([e] + es)[1..] == es;
  }

  lemma {:induction false} LastStep(owner: seq<Pid>, s: State, es: seq<Event>, e: Event)
    requires IsRun(owner, s, es) && CursorsOk(After(owner, s, es)) && CanStep(owner, After(owner, s, es), e)
    ensures IsRun(owner, s, es + [e]) && After(owner, s, es + [e]) == Step(owner, After(owner, s, es), e)
    decreases |es|
  {
    if es == [] {
      assert es + [e] == [e];
    } else {
      LastStep(owner, Step(owner, s, es[0]), es[1..], e);
      assert (es + [e])[1..] == es[1..] + [e];
    }
  }

  // ---------- enabling ----------

  /** The world after an enabling step, as the process sees it. */
  lemma EnableSeen(owner: seq<Pid>, s: State, p: Pid, w: World)
    requires Sees(s, p, w) && s.procs[p].phase.Enabling? && s.procs[p].state == ENABLING && s.procs[p].phase.pos < |s.procs[p].guards|
    ensures var pr, k, s' := s.procs[p], s.procs[p].phase.pos, EnableStep(s, p, false);
            var i := At(pr.first, k, |pr.guards|);
            if !pr.guards[i].active then
              Became(s, s', p, pr.(phase := Enabling(k + 1)), w.lines)
            else
              var a := EnableGuard(w, p, pr.guards[i], 0, None);
              && a.partner == None && a.world == w.(lines := a.world.lines)
              && Became(s, s', p, if a.ready then pr.(state := READY, phase := Committed(k)) else pr.(phase := Enabling(k + 1)), a.world.lines)
  {
    var pr, k := s.procs[p], s.procs[p].phase.pos;
    assert GuardFits(pr.guards[At(pr.first, k, |pr.guards|)], w);
  }

  /** What a step leaves is what the process sees next. */
  lemma SeesNext(s: State, s': State, p: Pid, pr: Proc, w: World, w': World)
    requires Sees(s, p, w) && Became(s, s', p, pr, w'.lines) && w' == w.(lines := w'.lines)
    requires pr.guards == s.procs[p].guards && CursorOk(pr)
    ensures Sees(s', p, w')
  {
  }

  /** The remaining steps of enabling, taken without interruption. */
  lemma {:induction false} Enables(owner: seq<Pid>, s: State, p: Pid, clock: seq<nat>, w: World) returns (es: seq<Event>)
    requires Sees(s, p, w) && s.procs[p].phase.Enabling? && s.procs[p].state == ENABLING && |clock| == |s.procs[p].guards|
    ensures IsRun(owner, s, es) && StepsOf(es, p)
    ensures var pr := s.procs[p];
            var e := EnableFrom(pr.guards, p, clock, w, At(pr.first, pr.phase.pos, |pr.guards|), pr.phase.pos, None);
            && 0 <= e.count < |pr.guards| && e.world == w.(lines := e.world.lines)
            && Became(s, After(owner, s, es), p, pr.(state := if e.ready then READY else WAITING, phase := Committed(e.count)), e.world.lines)
    decreases |s.procs[p].guards| - s.procs[p].phase.pos
  {
    var pr, k := s.procs[p], s.procs[p].phase.pos;
    var n := |pr.guards|;
    var s1 := EnableStep(s, p, false);
    es := [Enable(p, false)];
    assert CanStep(owner, s, Enable(p, false)) && Step(owner, s, Enable(p, false)) == s1;
    if k < n {
      EnableSeen(owner, s, p, w);
      Turn(pr.first, k, n);
      var i := At(pr.first, k, n);
      if pr.guards[i].active && EnableGuard(w, p, pr.guards[i], 0, None).ready {
        FirstStep(owner, s, Enable(p, false), []);
      } else {
        var w1 := if pr.guards[i].active then EnableGuard(w, p, pr.guards[i], 0, None).world else w;
        SeesNext(s, s1, p, pr.(phase := Enabling(k + 1)), w, w1);
        var rest := Enables(owner, s1, p, clock, w1);
        FirstStep(owner, s, Enable(p, false), rest);
        es := [Enable(p, false)] + rest;
      }
    } else {
      FirstStep(owner, s, Enable(p, false), []);
    }
  }

  /** A resting process that begins its ALT and is not interleaved with anything
      enables it as enable_alt does, and waits unless a guard was ready. */
  lemma EnablingIsAlt(owner: seq<Pid>, s: State, p: Pid, alt: Alternation, clock: seq<nat>, w: World) returns (es: seq<Event>)
    requires Sees(s, p, w) && s.procs[p].phase.Resting? && |clock| == |alt.guards|
    requires alt.guards == s.procs[p].guards && (alt.pri || alt.index < |alt.guards|)
    ensures IsRun(owner, s, es) && StepsOf(es, p)
    ensures var e := EnableAlt(alt, p, clock, w);
            && 0 <= e.count < |alt.guards| && e.world == w.(lines := e.world.lines)
            && Became(s, After(owner, s, es), p,
                      Proc(if e.ready then READY else WAITING, alt.guards, FirstGuard(alt), Committed(e.count)), e.world.lines)
  {
    var first, pr := FirstGuard(alt), s.procs[p];
    var begin := Begin(p, first);
    var s1 := Step(owner, s, begin);
    assert Became(s, s1, p, Proc(ENABLING, pr.guards, first, Enabling(0)), w.lines);
    assert CanStep(owner, s, begin) && At(first, 0, |alt.guards|) == first;
    SeesNext(s, s1, p, Proc(ENABLING, pr.guards, first, Enabling(0)), w, w);
    var rest := Enables(owner, s1, p, clock, w);
    FirstStep(owner, s, begin, rest);
    es := [begin] + rest;
  }

  // ---------- disabling ----------

  /** The world after a disabling step, as the process sees it. */
  lemma DisableSeen(owner: seq<Pid>, s: State, p: Pid, w: World)
    requires Sees(s, p, w) && s.procs[p].phase.Disabling? && s.procs[p].phase.left >= 0 && CursorOk(s.procs[p])
    ensures var pr, k, s' := s.procs[p], s.procs[p].phase.left, DisableStep(s, p, false);
            var i := At(pr.first, k, |pr.guards|);
            if !pr.guards[i].active then
              Became(s, s', p, pr.(phase := Disabling(k - 1, pr.phase.selected)), w.lines)
            else
              var a := DisableGuard(w, p, pr.guards[i], 0, None);
              && a.partner == None && a.world == w.(lines := a.world.lines)
              && Became(s, s', p, pr.(phase := Disabling(k - 1, if a.ready then i else pr.phase.selected)), a.world.lines)
  {
    var pr, k := s.procs[p], s.procs[p].phase.left;
    assert GuardFits(pr.guards[At(pr.first, k, |pr.guards|)], w);
  }

  /** The remaining steps of disabling, taken without interruption. */
  lemma {:induction false} Disables(owner: seq<Pid>, s: State, p: Pid, clock: seq<nat>, w: World, i: nat) returns (es: seq<Event>)
    requires Sees(s, p, w) && s.procs[p].phase.Disabling? && CursorOk(s.procs[p]) && |clock| == |s.procs[p].guards|
    requires var pr := s.procs[p]; i < |pr.guards| && (pr.phase.left >= 0 ==> i == At(pr.first, pr.phase.left, |pr.guards|))
    requires s.procs[p].phase.left >= -1
    ensures IsRun(owner, s, es) && StepsOf(es, p)
    ensures var pr := s.procs[p];
            var d := DisableFrom(pr.guards, p, clock, w, i, pr.phase.left, pr.phase.selected, None);
            && d.world == w.(lines := d.world.lines) && d.partner == None && d.index < |pr.guards|
            && Became(s, After(owner, s, es), p, pr.(phase := Disabling(-1, d.index)), d.world.lines)
    decreases s.procs[p].phase.left + 1
  {
    var pr, k := s.procs[p], s.procs[p].phase.left;
    if k < 0 {
      es := [];
    } else {
      var s1, n := DisableStep(s, p, false), |pr.guards|;
      assert CanStep(owner, s, Disable(p, false)) && Step(owner, s, Disable(p, false)) == s1;
      DisableSeen(owner, s, p, w);
      if k > 0 { Turn(pr.first, k - 1, n); }
      var w1 := if pr.guards[i].active then DisableGuard(w, p, pr.guards[i], 0, None).world else w;
      SeesNext(s, s1, p, s1.procs[p], w, w1);
      var rest := Disables(owner, s1, p, clock, w1, Minus1Mod(i, n));
      FirstStep(owner, s, Disable(p, false), rest);
      es := [Disable(p, false)] + rest;
    }
  }

  /** `s'` is `s` with process `p` at rest: the interrupt channel of guard `g` has
      given all it had counted, to the destination if there is one, and the
      channels name whom they name in `lines`. */
  predicate Delivers(s: State, s': State, p: Pid, g: Guard, lines: seq<Line>)
    requires p < |s.procs|
  {
    && s'.procs == s.procs[p := s.procs[p].(state := QUIESCENT, phase := Resting)]
    && |lines| == |s'.wires| == |s.wires|
    && forall l :: 0 <= l < |s.wires| ==>
         var v, v' := s.wires[l], s'.wires[l];
         v'.waiting == lines[l].waiting && v'.count == lines[l].count &&
         if g.kind.Interrupt? && g.kind.line == l then
           && v'.count == 0 && v'.received == v.received && v'.connected == v.connected
           && v'.delivered == (if g.kind.into.Some? then v.delivered + v.count else v.delivered)
           && v'.discarded == (if g.kind.into.Some? then v.discarded else v.discarded + v.count)
         else v' == v.(waiting := v'.waiting)
  }

  /** Selecting after the walk back has come to an end. */
  lemma Selects(s: State, s1: State, p: Pid, pr: Proc, d: Walk)
    requires p < |s.procs| && |s1.procs| == |s.procs| && Became(s, s1, p, pr, d.world.lines)
    requires pr.phase.Disabling? && pr.phase.selected == d.index < |pr.guards| && GuardFits(pr.guards[d.index], d.world)
    requires pr.guards == s.procs[p].guards && pr.first == s.procs[p].first
    ensures Delivers(s, SelectStep(s1, p), p, pr.guards[d.index], Complete(pr.guards[d.index], d.world).0.lines)
    ensures var g := pr.guards[d.index];
            g.kind.Interrupt? ==> Complete(g, d.world).1 == FromLine(g.kind.into, s.wires[g.kind.line].count)
  {
  }

  /** Starting to disable and walking back over all guards enabled. */
  lemma WalksBack(owner: seq<Pid>, s: State, p: Pid, clock: seq<nat>, w: World) returns (es: seq<Event>)
    requires Sees(s, p, w) && s.procs[p].phase.Committed? && s.procs[p].state == READY && |clock| == |s.procs[p].guards|
    ensures IsRun(owner, s, es) && StepsOf(es, p) && CursorOk(s.procs[p])
    ensures var pr, s' := s.procs[p], After(owner, s, es);
            var i := At(pr.first, pr.phase.last, |pr.guards|);
            var d := DisableFrom(pr.guards, p, clock, w, i, pr.phase.last, i, None);
            && d.world == w.(lines := d.world.lines) && d.index < |pr.guards|
            && Became(s, s', p, pr.(phase := Disabling(-1, d.index)), d.world.lines) && Sees(s', p, d.world)
  {
    var pr := s.procs[p];
    assert CursorOk(pr);
    var i := At(pr.first, pr.phase.last, |pr.guards|);
    var pr1, s1 := pr.(phase := Disabling(pr.phase.last, i)), Step(owner, s, Start(p));
    assert CanStep(owner, s, Start(p)) && Became(s, s1, p, pr1, w.lines);
    SeesNext(s, s1, p, pr1, w, w);
    var mid := Disables(owner, s1, p, clock, w, i);
    FirstStep(owner, s, Start(p), mid);
    var d := DisableFrom(pr.guards, p, clock, w, i, pr.phase.last, i, None);
    var s2, pr2 := After(owner, s1, mid), pr.(phase := Disabling(-1, d.index));
    BecameTwice(s, s1, s2, p, pr1, pr2, w.lines, d.world.lines);
    SeesNext(s1, s2, p, pr2, w, d.world);
    es := [Start(p)] + mid;
  }

  /** A ready process that is not interleaved with anything from then on disables its
      ALT as disable_alt does, and delivers what that transfers: all interrupts
      counted on the channel selected, of which there are some. */
  lemma DisablingIsAlt(owner: seq<Pid>, s: State, p: Pid, clock: seq<nat>, w: World, pri: bool) returns (es: seq<Event>)
    requires Inv(owner, s) && Sees(s, p, w) && s.procs[p].phase.Committed? && s.procs[p].state == READY
    requires |clock| == |s.procs[p].guards|
    ensures IsRun(owner, s, es) && StepsOf(es, p) && CursorOk(s.procs[p])
    ensures var pr := s.procs[p]; var k, n := pr.phase.last, |pr.guards|;
            var d := DisableAlt(Alternation(pr.guards, At(pr.first, k, n), k, pri), p, clock, w);
            var g := pr.guards[d.index];
            && g.kind.Interrupt? && Pending(s, g)
            && d.transfer == FromLine(g.kind.into, s.wires[g.kind.line].count)
            && d.world == w.(lines := d.world.lines) && Delivers(s, After(owner, s, es), p, g, d.world.lines)
  {
    var pr := s.procs[p];
    var walk := WalksBack(owner, s, p, clock, w);
    var s2 := After(owner, s, walk);
    var i := At(pr.first, pr.phase.last, |pr.guards|);
    var d := DisableFrom(pr.guards, p, clock, w, i, pr.phase.last, i, None);
    RunKeepsInv(owner, s, walk);
    assert CanStep(owner, s2, Select(p));
    SelectsPending(owner, s2, p);
    Selects(s, s2, p, s2.procs[p], d);
    LastStep(owner, s, walk, Select(p));
    es := walk + [Select(p)];
  }

  /** An interrupt on a channel that a process waits for reaches it: the interrupt
      readies the process, which left to itself then selects that channel and is
      delivered that one interrupt. */
  lemma InterruptReaches(owner: seq<Pid>, s: State, p: Pid, i: nat, w: World) returns (es: seq<Event>)
    requires Inv(owner, s) && Sees(s, p, w) && s.procs[p].state == WAITING
    requires i < |s.procs[p].guards| && s.procs[p].guards[i].active && s.procs[p].guards[i].kind.Interrupt?
    requires var l := s.procs[p].guards[i].kind.line; l < |s.wires| && s.wires[l].connected
    ensures var l := s.procs[p].guards[i].kind.line;
            var run := [Raise(l)] + es;
            && StepsOf(es, p) && IsRun(owner, s, run)
            && var s' := After(owner, s, run);
               && |s'.procs| == |s.procs| && |s'.wires| == |s.wires|
               && s'.procs[p].state == QUIESCENT && s'.wires[l].count == 0 && s'.wires[l].received == s.wires[l].received + 1
               && s'.wires[l].delivered + s'.wires[l].discarded == s.wires[l].delivered + s.wires[l].discarded + 1
  {
    var pr, l := s.procs[p], s.procs[p].guards[i].kind.line;
    WaitingHasNone(owner, s, p, i);
    assert CanStep(owner, s, Raise(l));
    var s1 := Step(owner, s, Raise(l));
    StepKeepsInv(owner, s, Raise(l));
    assert CursorOk(pr);
    var w1 := w.(lines := Interrupted(w.lines, l));
    RaiseIsCounted(owner, s, l);
    assert WorldOf(s1).lines == w1.lines;
    assert s1.procs[p] == pr.(state := READY);
    forall j | 0 <= j < |pr.guards| ensures GuardFits(pr.guards[j], w1) {
      assert GuardFits(pr.guards[j], w);
    }
    var clock := seq(|pr.guards|, j => 0);
    es := DisablingIsAlt(owner, s1, p, clock, w1, false);
    FirstStep(owner, s, Raise(l), es);
    var d := DisableAlt(Alternation(pr.guards, At(pr.first, pr.phase.last, |pr.guards|), pr.phase.last, false), p, clock, w1);
    var g := pr.guards[d.index];
    if g.kind.line != l {
      WaitingHasNone(owner, s, p, d.index);
    }
  }
}
