/** The second test of readyProcessIfNecessary assigns where its comments compare.
    When that matters, exactly, and for which programs it never does. */
module SchedulerText {
  import opened Types
  import opened Sequences
  import opened Alt
  import opened AltChannels
  import opened Scheduler
  import opened SchedulerInv
  import opened SchedulerMoves
  import opened SchedulerRuns

  /** The iteration is an output to a process that is already queued with others behind it. */
  predicate ReadiesAgain(s: Sys)
    requires CanStep(s)
  {
    MoveOf(s).Offer? && MoveOf(s).chan < |s.cells| && s.cells[MoveOf(s).chan].waiting.Some? &&
    var q := s.cells[MoveOf(s).chan].waiting.value;
    q < |s.procs| && s.procs[q].state == READY && Taken(s).ready != [] && Taken(s).ready[|Taken(s).ready| - 1] != q
  }

  /** Under both readings a process that is still enabling is made ready and not
      queued, one that waits is made ready and queued last, and no other process
      changes; a process in any other state is left alone as intended, and made
      ready and linked in as written. */
  lemma ReadyProcessBy(text: Text, s: Sys, q: Pid)
    requires q < |s.procs| && q !in s.ready
    ensures var s', pr := ReadyProcess(text, s, q), s.procs[q];
            && s'.cells == s.cells && s'.held == s.held
            && (pr.state == ENABLING ==> s'.procs == s.procs[q := Proc(READY, pr.alt, pr.vars)] && s'.ready == s.ready)
            && (pr.state == WAITING || (text == Written && pr.state != ENABLING) ==>
                  s'.procs == s.procs[q := Proc(READY, pr.alt, pr.vars)] && s'.ready == s.ready + [q])
            && (text == Intended && pr.state !in {ENABLING, WAITING} ==> s' == s)
  {
  }

  /** Linking in a queued process again loses exactly the processes behind it. */
  lemma AppendQueued(q: seq<Pid>, p: Pid)
    requires NoDuplicates(q) && p in q
    ensures LinkLast(q, p) + q[IndexOf(q, p) + 1..] == q
    ensures LinkLast(q, p) == q <==> q[|q| - 1] == p
  {
  }

  /** Only an outputter can find its partner already readied. */
  lemma OnlyOfferFindsReady(wr: Wiring, s: Sys, o: Outcome)
    requires Inv(wr, s) && Running(s) && CanStep(s) && !MoveOf(s).Offer?
    ensures Step(Written, s, o) == Step(Intended, s, o)
  {
    StepMoves(wr, Written, s, o);
    StepMoves(wr, Intended, s, o);
    match MoveOf(s)
    case Take(_, c) => assert CellOk(wr, s, c);
    case _ =>
  }

  lemma OfferTexts(wr: Wiring, s: Sys, o: Outcome)
    requires Inv(wr, s) && Running(s) && CanStep(s) && MoveOf(s).Offer?
    ensures var c, a, b := MoveOf(s).chan, Step(Written, s, o), Step(Intended, s, o);
            && c < |s.cells| && a == b.(ready := a.ready)
            && var w := s.cells[c].waiting;
               if w.Some? && w.value < |s.procs| && s.procs[w.value].state == READY then
                 w.value in Taken(s).ready && a.ready == LinkLast(Taken(s).ready, w.value) && b.ready == Taken(s).ready
               else a == b
  {
    StepMoves(wr, Written, s, o);
    StepMoves(wr, Intended, s, o);
    var p, c, x := Current(s), MoveOf(s).chan, MoveOf(s).src;
    assert CellOk(wr, s, c);
    TakenPlaced(wr, s);
    var alt := s.procs[p].alt;
    var a, b := Step(Written, s, o), Step(Intended, s, o);
    SameCursor(wr, s, o);
    var s1 := SetProc(Taken(s), p, s.procs[p].(state := WAITING, alt := a.procs[p].alt)).
                (cells := s.cells[c := Cell(Some(p), Some(Address(p, x)))]);
    if s.cells[c].waiting.Some? {
      var q := s.cells[c].waiting.value;
      assert q != p;
      assert s1.procs[q] == s.procs[q];
      if s.procs[q].state == READY {
        assert s1.procs == s1.procs[q := s1.procs[q].(state := READY)];
      }
    }
  }

  lemma SameCursor(wr: Wiring, s: Sys, o: Outcome)
    requires Inv(wr, s) && Running(s) && CanStep(s) && MoveOf(s).Offer? && Current(s) < |s.procs|
    ensures Step(Written, s, o).procs[Current(s)] == Step(Intended, s, o).procs[Current(s)]
  {
    var p := Current(s);
    var pr := s.procs[p];
    StepMoves(wr, Written, s, o);
    BehavedFits(wr, p, pr, s.cells);
    AbsentUnlessCommitted(wr, s, p);
    EnableFits(pr.alt, p, s.cells);
    EnableOutput(pr.alt, p, s.cells);
    var e := EnableAlt(pr.alt, p, Ticks(|pr.alt.guards|), Channels(s.cells));
    var s2 := SetProc(Taken(s), p, pr.(state := WAITING, alt := WithCursor(pr.alt, e))).(cells := e.world.cells);
    PartnerKeeps(Written, s2, e.partner, p);
    PartnerKeeps(Intended, s2, e.partner, p);
  }

  /** An iteration of the written text does what is intended exactly when it is not such an output. */
  lemma WrittenIsIntended(wr: Wiring, s: Sys, o: Outcome)
    requires Inv(wr, s) && Running(s)
    ensures CanStep(s) && (Step(Written, s, o) == Step(Intended, s, o) <==> !ReadiesAgain(s))
  {
    InvCanStep(wr, s);
    if !MoveOf(s).Offer? {
      OnlyOfferFindsReady(wr, s, o);
    } else {
      OfferTexts(wr, s, o);
      TakenPlaced(wr, s);
      assert CellOk(wr, s, MoveOf(s).chan);
      var w := s.cells[MoveOf(s).chan].waiting;
      if w.Some? && s.procs[w.value].state == READY {
        AppendQueued(Taken(s).ready, w.value);
      }
    }
  }

  /** And exactly then it keeps the invariant: otherwise a process is ready but in no queue. */
  lemma WrittenKeepsInv(wr: Wiring, s: Sys, o: Outcome)
    requires Inv(wr, s) && Running(s) && Behaved(wr, Current(s), o.alt, o.vars)
    ensures CanStep(s) && (Inv(wr, Step(Written, s, o)) <==> !ReadiesAgain(s))
  {
    InvStep(wr, s, o);
    WrittenIsIntended(wr, s, o);
    if ReadiesAgain(s) {
      OfferTexts(wr, s, o);
      TakenPlaced(wr, s);
      var a, b, q := Step(Written, s, o), Step(Intended, s, o), s.cells[MoveOf(s).chan].waiting.value;
      LastIsLost(a.ready, b.ready, q);
      assert b.ready[|b.ready| - 1] in b.ready;
      assert !Placed(a);
    }
  }

  lemma LastIsLost(a: seq<Pid>, b: seq<Pid>, p: Pid)
    requires NoDuplicates(b) && p in b && a == LinkLast(b, p) && b[|b| - 1] != p
    ensures b[|b| - 1] !in a
  {
  }

  // ---------- programs with one guard at a time ----------

  /** At most one guard is active. */
  predicate LoneGuard(g: seq<Guard>) {
    forall i, j :: 0 <= i < |g| && 0 <= j < |g| && g[i].active && g[j].active ==> i == j
  }

  predicate LoneGuards(s: Sys) {
    forall p :: 0 <= p < |s.procs| && s.procs[p].state !in {INITIAL, DONE} ==> LoneGuard(s.procs[p].alt.guards)
  }

  /** With one guard active, a process still in its channel has not been readied. */
  lemma LoneOccupantWaits(wr: Wiring, s: Sys, c: nat)
    requires Inv(wr, s) && LoneGuards(s) && c < |s.cells| && s.cells[c].waiting.Some?
    ensures s.cells[c].waiting.value < |s.procs| && s.procs[s.cells[c].waiting.value].state == WAITING
  {
    var q := s.cells[c].waiting.value;
    assert CellOk(wr, s, c) && ReadyOk(s, q);
  }

  lemma LoneNeverReadiesAgain(wr: Wiring, s: Sys)
    requires Inv(wr, s) && Running(s) && LoneGuards(s)
    ensures CanStep(s) && !ReadiesAgain(s)
  {
    InvCanStep(wr, s);
    var m := MoveOf(s);
    if m.Offer? && m.chan < |s.cells| && s.cells[m.chan].waiting.Some? {
      LoneOccupantWaits(wr, s, m.chan);
    }
  }

  ghost function RunText(text: Text, s: Sys, os: seq<Outcome>): Sys
    decreases |os|
  {
    if os == [] || !CanStep(s) then s else RunText(text, Step(text, s, os[0]), os[1..])
  }

  /** A program whose processes never have more than one active guard runs as
      intended under the text as written. */
  lemma {:induction false} LoneGuardRuns(wr: Wiring, s: Sys, os: seq<Outcome>)
    requires Inv(wr, s) && GoodRun(wr, s, os) && LoneGuards(s) && forall o :: o in os ==> LoneGuard(o.alt.guards)
    ensures RunText(Written, s, os) == RunAll(wr, s, os)
    ensures Inv(wr, RunText(Written, s, os))
    decreases |os|
  {
    if os != [] {
      InvStep(wr, s, os[0]);
      LoneNeverReadiesAgain(wr, s);
      WrittenIsIntended(wr, s, os[0]);
      LoneStep(wr, s, os[0]);
      assert os[0] in os;
      LoneGuardRuns(wr, Step(Intended, s, os[0]), os[1..]);
    }
  }

  lemma LoneStep(wr: Wiring, s: Sys, o: Outcome)
    requires Inv(wr, s) && Running(s) && LoneGuards(s) && LoneGuard(o.alt.guards)
    ensures CanStep(s) && LoneGuards(Step(Intended, s, o))
  {
    InvCanStep(wr, s);
    forall r | 0 <= r < |s.procs| ensures KeepsGuards(s, Step(Intended, s, o), o, r) {
      StepGuards(wr, s, o, r);
    }
  }
}
