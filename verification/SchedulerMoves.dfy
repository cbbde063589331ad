/** The kinds of iteration of the scheduler loop, and that each keeps the invariant. */
module SchedulerMoves {
  import opened Types
  import opened Alt
  import opened AltChannels
  import opened Scheduler
  import opened SchedulerInv

  datatype Move =
    | Start                          // a new process runs for the first time
    | Wait                           // inputs only, no partner: the process waits
    | Offer(chan: nat, src: nat)     // the outputter waits in its channel
    | Take(branch: nat, chan: nat)   // an input is selected, its value copied, and the process runs
    | Pass(branch: nat)              // a skip is selected and the process runs
    | Resume                         // an outputter runs after its value was taken

  /** The selected branch of the current process's ALT once it is disabled. */
  function SelectedMove(g: seq<Guard>, index: nat): Move
    requires index < |g|
  {
    match g[index].kind
    case ChanIn(c, _) => Take(index, c)
    case ChanOut(_, _) => Resume
    case _ => Pass(index)
  }

  function MoveOf(s: Sys): Move
    requires CanStep(s)
  {
    var p := Current(s);
    var alt := s.procs[p].alt;
    match s.procs[p].state
    case INITIAL => Start
    case QUIESCENT =>
      var e := EnableAlt(alt, p, Ticks(|alt.guards|), Channels(s.cells));
      EnableFits(alt, p, s.cells);
      if e.ready then SelectedMove(alt.guards, DisableAlt(WithCursor(alt, e), p, Ticks(|alt.guards|), e.world).index)
      else if HasOutput(alt.guards) then
        (match alt.guards[OutIndex(alt.guards)].kind case ChanOut(c, x) => Offer(c, x))
      else Wait
    case READY => SelectedMove(alt.guards, DisableAlt(alt, p, Ticks(|alt.guards|), Channels(s.cells)).index)
    case _ => Wait
  }

  function AfterRun(s: Sys, p: Pid, o: Outcome, done: bool): Sys
    requires p < |s.procs|
  {
    SetProc(s, p, Proc(if done then DONE else QUIESCENT, o.alt, o.vars)).(held := if done then None else Some(p))
  }

  function AfterTake(text: Text, s: Sys, o: Outcome, c: nat): Sys
    requires Running(s) && Current(s) < |s.procs| && c < |s.cells|
  {
    var p := Current(s);
    var s1 := Taken(s).(cells := Cleared(s.cells, p)[c := s.cells[c].(waiting := None)]);
    AfterRun(ReadyPartner(text, s1, s.cells[c].waiting), p, o, o.done)
  }

  function AfterOffer(text: Text, s: Sys, alt: Alternation, c: nat, x: nat): Sys
    requires Running(s) && Current(s) < |s.procs| && c < |s.cells|
  {
    var p := Current(s);
    var s1 := SetProc(Taken(s), p, s.procs[p].(state := WAITING, alt := alt)).(cells := s.cells[c := Cell(Some(p), Some(Address(p, x)))]);
    ReadyPartner(text, s1, s.cells[c].waiting).(held := None)
  }

  predicate SameAlt(alt: Alternation, alt': Alternation) {
    alt' == alt.(index := alt'.index, count := alt'.count) && alt'.index < |alt'.guards| && alt'.count == |alt'.guards| - 1
  }

  /** What a move makes of the system. */
  ghost predicate Moves(text: Text, s: Sys, m: Move, o: Outcome, s': Sys)
    requires Running(s) && Current(s) < |s.procs|
  {
    var p := Current(s);
    var pr := s.procs[p];
    match m
    case Start => pr.state == INITIAL && s' == AfterRun(Taken(s), p, o, false)
    case Resume => pr.state == READY && HasOutput(pr.alt.guards) && s' == AfterRun(Taken(s), p, o, o.done)
    case Pass(i) => pr.state == QUIESCENT && i < |pr.alt.guards| && Skips(pr.alt.guards[i]) && s' == AfterRun(Taken(s), p, o, o.done)
    case Wait =>
      && pr.state == QUIESCENT && !HasOutput(pr.alt.guards) && !HasSkip(pr.alt.guards)
      && Joined(s.cells, s'.cells, p)
      && (forall c :: 0 <= c < |s'.cells| ==> (s'.cells[c].waiting == Some(p) <==> Offers(pr.alt.guards, c)))
      && p < |s'.procs| && SameAlt(pr.alt, s'.procs[p].alt)
      && s' == SetProc(Taken(s), p, pr.(state := WAITING, alt := s'.procs[p].alt)).(cells := s'.cells, held := None)
    case Offer(c, x) =>
      && pr.state == QUIESCENT && OutputsOn(pr, c, x) && c < |s.cells|
      && p < |s'.procs| && SameAlt(pr.alt, s'.procs[p].alt)
      && s' == AfterOffer(text, s, s'.procs[p].alt, c, x)
    case Take(i, c) =>
      && pr.state in {QUIESCENT, READY} && !HasOutput(pr.alt.guards)
      && i < |pr.alt.guards| && InputOn(pr.alt.guards[i], c)
      && c < |s.cells| && s.cells[c].waiting.Some? && s.cells[c].waiting != Some(p)
      && s' == AfterTake(text, s, o, c)
  }

  lemma SelectMoves(text: Text, s: Sys, s0: Sys, p: Pid, o: Outcome, cells: seq<Cell>, rest: seq<Cell>)
    requires p < |s.procs| && AltFits(s.procs[p], s.cells) && CursorFits(s.procs[p])
    requires var d := DisableAlt(s.procs[p].alt, p, Ticks(|s.procs[p].alt.guards|), Channels(s.cells));
             Took(s.procs[p].alt.guards[d.index], d, p, cells, rest)
    requires |s0.procs| == |s.procs| && s0.ready == s.ready && s0.held == s.held == Some(p)
    requires forall r :: 0 <= r < |s.procs| && r != p ==> s0.procs[r] == s.procs[r]
    ensures var d := DisableAlt(s.procs[p].alt, p, Ticks(|s.procs[p].alt.guards|), Channels(s.cells));
            var h := s.procs[p].alt.guards[d.index];
            && (h.kind.ChanIn? ==>
                  var c := h.kind.chan;
                  var s1 := s0.(cells := rest[c := cells[c].(waiting := None)]);
                  Select(text, s, p, o) == AfterRun(ReadyPartner(text, s1, cells[c].waiting), p, o, o.done))
            && (h.kind.Skip? ==> Select(text, s, p, o) == AfterRun(s0.(cells := rest), p, o, o.done))
  {
    var alt := s.procs[p].alt;
    var d := DisableAlt(alt, p, Ticks(|alt.guards|), Channels(s.cells));
    var s1 := SetProc(s, p, Proc(QUIESCENT, alt.(index := d.index), Receive(s, p, d.transfer))).(cells := d.world.cells);
    var s1' := s0.(cells := d.world.cells);
    PartnerElsewhere(text, s1, s1', p, d.partner);
    var a, b := ReadyPartner(text, s1, d.partner), ReadyPartner(text, s1', d.partner);
    var out := Proc(if o.done then DONE else QUIESCENT, o.alt, o.vars);
    assert a.procs[p := out] == b.procs[p := out];
  }

  /** Waking another process commutes with what happens to process `p`. */
  lemma PartnerElsewhere(text: Text, s: Sys, s': Sys, p: Pid, partner: Option<Pid>)
    requires p < |s.procs| == |s'.procs| && s'.ready == s.ready && s'.held == s.held && s'.cells == s.cells && partner != Some(p)
    requires forall r :: 0 <= r < |s.procs| && r != p ==> s'.procs[r] == s.procs[r]
    ensures var a, b := ReadyPartner(text, s, partner), ReadyPartner(text, s', partner);
            && a.ready == b.ready && a.held == b.held && a.cells == b.cells && |a.procs| == |b.procs|
            && (forall r :: 0 <= r < |s.procs| && r != p ==> a.procs[r] == b.procs[r])
  {
  }

  lemma OfferMoves(wr: Wiring, text: Text, s: Sys, o: Outcome)
    requires Inv(wr, s) && Running(s) && CanStep(s) && s.procs[Current(s)].state == QUIESCENT
    requires HasOutput(s.procs[Current(s)].alt.guards)
    ensures Moves(text, s, MoveOf(s), o, Step(text, s, o))
  {
    var p := Current(s);
    var pr := s.procs[p];
    BehavedFits(wr, p, pr, s.cells);
    AbsentUnlessCommitted(wr, s, p);
    EnableFits(pr.alt, p, s.cells);
    EnableOutput(pr.alt, p, s.cells);
    var e := EnableAlt(pr.alt, p, Ticks(|pr.alt.guards|), Channels(s.cells));
    var s2 := SetProc(Taken(s), p, pr.(state := WAITING, alt := WithCursor(pr.alt, e))).(cells := e.world.cells);
    PartnerKeeps(text, s2, e.partner, p);
  }

  lemma TakeAtOnceMoves(wr: Wiring, text: Text, s: Sys, o: Outcome)
    requires Inv(wr, s) && Running(s) && CanStep(s) && s.procs[Current(s)].state == QUIESCENT
    requires var p := Current(s); var pr := s.procs[p];
             !HasOutput(pr.alt.guards) && EnableAlt(pr.alt, p, Ticks(|pr.alt.guards|), Channels(s.cells)).ready
    ensures Moves(text, s, MoveOf(s), o, Step(text, s, o))
  {
    var p, s1 := Current(s), Taken(s);
    var pr := s.procs[p];
    var e := EnableAlt(pr.alt, p, Ticks(|pr.alt.guards|), Channels(s.cells));
    BehavedFits(wr, p, pr, s.cells);
    AbsentUnlessCommitted(wr, s, p);
    EnableFits(pr.alt, p, s.cells);
    EnableInputs(pr.alt, p, s.cells);
    SelectAtOnce(pr.alt, p, s.cells);
    var s2 := SetProc(s1, p, pr.(state := READY, alt := WithCursor(pr.alt, e))).(cells := e.world.cells);
    assert Cleared(s.cells, p) == s.cells;
    SelectMoves(text, s2, s1, p, o, s.cells, s.cells);
    assert e.world == Channels(e.world.cells);
  }

  lemma PartnerKeeps(text: Text, s: Sys, partner: Option<Pid>, p: Pid)
    requires p < |s.procs| && partner != Some(p)
    ensures ReadyPartner(text, s, partner).procs[p] == s.procs[p]
  {
  }

  lemma WaitMoves(wr: Wiring, text: Text, s: Sys, o: Outcome)
    requires Inv(wr, s) && Running(s) && CanStep(s) && s.procs[Current(s)].state == QUIESCENT
    requires var p := Current(s); var pr := s.procs[p];
             !HasOutput(pr.alt.guards) && !EnableAlt(pr.alt, p, Ticks(|pr.alt.guards|), Channels(s.cells)).ready
    ensures MoveOf(s) == Wait && Moves(text, s, Wait, o, Step(text, s, o))
  {
    var p := Current(s);
    var pr := s.procs[p];
    BehavedFits(wr, p, pr, s.cells);
    AbsentUnlessCommitted(wr, s, p);
    EnableInputs(pr.alt, p, s.cells);
    EnableFits(pr.alt, p, s.cells);
    EnableJoinsOffered(pr.alt, p, s.cells);
  }

  lemma ReadyMoves(wr: Wiring, text: Text, s: Sys, o: Outcome)
    requires Inv(wr, s) && Running(s) && CanStep(s) && s.procs[Current(s)].state == READY
    ensures Moves(text, s, MoveOf(s), o, Step(text, s, o))
  {
    var p, s1 := Current(s), Taken(s);
    var pr := s.procs[p];
    var g := pr.alt.guards;
    BehavedFits(wr, p, pr, s.cells);
    assert ReadyOk(s, p);
    if HasOutput(g) {
      DisableAfterOutput(pr.alt, p, s.cells);
      assert s1.procs[p := Proc(QUIESCENT, pr.alt.(index := OutIndex(g)), pr.vars)][p := Proc(if o.done then DONE else QUIESCENT, o.alt, o.vars)]
        == s1.procs[p := Proc(if o.done then DONE else QUIESCENT, o.alt, o.vars)];
    } else {
      var c :| 0 <= c < |s.cells| && Brings(s, p, c);
      forall b | 0 <= b < |s.cells| && s.cells[b].waiting == Some(p) ensures Offers(g, b) {
        assert CellOk(wr, s, b);
      }
      SelectAfterWait(pr.alt, p, s.cells, c);
      SelectMoves(text, s1, s1, p, o, s.cells, Cleared(s.cells, p));
    }
  }

  /** Every iteration is one of the six moves. */
  lemma StepMoves(wr: Wiring, text: Text, s: Sys, o: Outcome)
    requires Inv(wr, s) && Running(s)
    ensures CanStep(s) && Moves(text, s, MoveOf(s), o, Step(text, s, o))
  {
    InvCanStep(wr, s);
    match s.procs[Current(s)].state
    case INITIAL =>
    case QUIESCENT =>
      var p := Current(s);
      var alt := s.procs[p].alt;
      if HasOutput(alt.guards) { OfferMoves(wr, text, s, o); }
      else if EnableAlt(alt, p, Ticks(|alt.guards|), Channels(s.cells)).ready { TakeAtOnceMoves(wr, text, s, o); }
      else { WaitMoves(wr, text, s, o); }
    case READY => ReadyMoves(wr, text, s, o);
  }

  /** The scheduler invariant holds after every iteration. */
  lemma InvStep(wr: Wiring, s: Sys, o: Outcome)
    requires Inv(wr, s) && Running(s) && Behaved(wr, Current(s), o.alt, o.vars)
    ensures CanStep(s) && Inv(wr, Step(Intended, s, o))
  {
    StepMoves(wr, Intended, s, o);
    var p, s' := Current(s), Step(Intended, s, o);
    match MoveOf(s)
    case Start =>
      AbsentUnlessCommitted(wr, s, p);
      InvRun(wr, s, s', o, false);
    case Resume =>
      AbsentUnlessCommitted(wr, s, p);
      InvRun(wr, s, s', o, o.done);
    case Pass(_) =>
      AbsentUnlessCommitted(wr, s, p);
      InvRun(wr, s, s', o, o.done);
    case Wait =>
      AbsentUnlessCommitted(wr, s, p);
      InvWait(wr, s, s', s'.procs[p].alt, s'.cells);
    case Offer(c, x) =>
      AbsentUnlessCommitted(wr, s, p);
      InvCommitOutput(wr, s, s', s'.procs[p].alt, c, x);
    case Take(_, c) =>
      InvTake(wr, s, s', o, c);
  }

  /** Process `r` has the guards it had, unless it is the current process and has run. */
  predicate KeepsGuards(s: Sys, s': Sys, o: Outcome, r: Pid)
    requires Running(s) && r < |s.procs| == |s'.procs|
  {
    s'.procs[r].state !in {INITIAL, DONE} ==>
      || (s.procs[r].state !in {INITIAL, DONE} && s'.procs[r].alt.guards == s.procs[r].alt.guards)
      || (r == Current(s) && s'.procs[r].alt.guards == o.alt.guards)
  }

  lemma PartnerGuards(text: Text, s: Sys, partner: Option<Pid>, r: Pid)
    requires r < |s.procs|
    ensures var pr := ReadyPartner(text, s, partner).procs[r];
            pr == s.procs[r] || (partner == Some(r) && pr == s.procs[r].(state := READY))
  {
  }

  /** Only the current process's guards change, and only by running its code. */
  lemma StepGuards(wr: Wiring, s: Sys, o: Outcome, r: Pid)
    requires Inv(wr, s) && Running(s) && r < |s.procs|
    ensures CanStep(s) && KeepsGuards(s, Step(Intended, s, o), o, r)
  {
    StepMoves(wr, Intended, s, o);
    var p, s' := Current(s), Step(Intended, s, o);
    match MoveOf(s)
    case Offer(c, x) =>
      assert CellOk(wr, s, c);
      var s1 := SetProc(Taken(s), p, s.procs[p].(state := WAITING, alt := s'.procs[p].alt)).
                  (cells := s.cells[c := Cell(Some(p), Some(Address(p, x)))]);
      PartnerGuards(Intended, s1, s.cells[c].waiting, r);
    case Take(_, c) =>
      assert CellOk(wr, s, c);
      var s1 := Taken(s).(cells := Cleared(s.cells, p)[c := s.cells[c].(waiting := None)]);
      PartnerGuards(Intended, s1, s.cells[c].waiting, r);
    case _ =>
  }
}
