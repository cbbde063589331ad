/** What every iteration of the scheduler loop keeps. */
module SchedulerInv {
  import opened Types
  import opened Alt
  import opened AltChannels
  import opened Scheduler

  /** Which process inputs from and which outputs to each channel. */
  datatype Wiring = Wiring(inputter: seq<Pid>, outputter: seq<Pid>)

  ghost predicate ValidWiring(wr: Wiring, n: nat) {
    && |wr.inputter| == |wr.outputter|
    && forall c :: 0 <= c < |wr.inputter| ==> wr.inputter[c] < n && wr.outputter[c] < n && wr.inputter[c] != wr.outputter[c]
  }

  /** A guard that keeps to its process's own channel ends and variables. */
  predicate OwnGuard(wr: Wiring, p: Pid, h: Guard, vars: seq<int>)
    requires |wr.inputter| == |wr.outputter|
  {
    match h.kind
    case ChanIn(c, dest) => c < |wr.inputter| && (h.active ==> wr.inputter[c] == p && dest < |vars|)
    case ChanOut(c, src) => c < |wr.inputter| && (h.active ==> wr.outputter[c] == p && src < |vars|)
    case Skip => true
    case _ => false
  }

  /** An ALT and variables as a well-behaved process leaves them. */
  predicate Behaved(wr: Wiring, p: Pid, alt: Alternation, vars: seq<int>)
    requires |wr.inputter| == |wr.outputter|
  {
    && 1 <= |alt.guards| <= 255 && (alt.pri || alt.index < |alt.guards|) && OutputAlone(alt.guards)
    && forall i :: 0 <= i < |alt.guards| ==> OwnGuard(wr, p, alt.guards[i], vars)
  }

  // ---------- the invariant ----------

  predicate OffersOn(pr: Proc, c: nat) {
    !HasOutput(pr.alt.guards) && Offers(pr.alt.guards, c)
  }

  /** The process's ALT is a lone output of variable `x` on channel `c`. */
  predicate OutputsOn(pr: Proc, c: nat, x: nat) {
    HasOutput(pr.alt.guards) && pr.alt.guards[OutIndex(pr.alt.guards)].kind == ChanOut(c, x)
  }

  /** The whole ALT is enabled. */
  predicate FullCursor(pr: Proc) {
    pr.alt.index < |pr.alt.guards| && pr.alt.count == |pr.alt.guards| - 1
  }

  /** A channel holds nobody, its inputter while that waits for or has found a
      partner, or its outputter while that waits, with the address of the value. */
  predicate CellOk(wr: Wiring, s: Sys, c: nat)
    requires |wr.inputter| == |wr.outputter| == |s.cells| && c < |s.cells|
  {
    var cell := s.cells[c];
    cell.waiting.Some? ==>
      var w := cell.waiting.value;
      && w < |s.procs|
      && if w == wr.inputter[c] then OffersOn(s.procs[w], c) && s.procs[w].state in {WAITING, READY}
         else w == wr.outputter[c] && s.procs[w].state == WAITING && cell.src.Some? && cell.src.value.proc == w
              && OutputsOn(s.procs[w], c, cell.src.value.variable)
  }

  /** No lost wakeup: a waiting process occupies the channel of each of its active guards. */
  predicate WaitingOk(s: Sys, p: Pid)
    requires p < |s.procs|
  {
    var pr := s.procs[p];
    pr.state == WAITING ==>
      && FullCursor(pr)
      && (HasOutput(pr.alt.guards) ==>
            var c := pr.alt.guards[OutIndex(pr.alt.guards)].kind.chan;
            c < |s.cells| && s.cells[c].waiting == Some(p))
      && (!HasOutput(pr.alt.guards) ==>
            && !HasSkip(pr.alt.guards)
            && forall c :: 0 <= c < |s.cells| && Offers(pr.alt.guards, c) ==> s.cells[c].waiting == Some(p))
  }

  /** Channel `c` has brought process `pr` its partner. */
  predicate Brings(s: Sys, p: Pid, c: nat)
    requires p < |s.procs|
  {
    c < |s.cells| && Offers(s.procs[p].alt.guards, c) && s.cells[c].waiting.Some? && s.cells[c].waiting != Some(p)
  }

  /** A readied inputter has a partner waiting for it. */
  predicate ReadyOk(s: Sys, p: Pid)
    requires p < |s.procs|
  {
    var pr := s.procs[p];
    pr.state == READY ==>
      && FullCursor(pr)
      && (!HasOutput(pr.alt.guards) ==>
            && !HasSkip(pr.alt.guards)
            && (forall c :: 0 <= c < |s.cells| && Offers(pr.alt.guards, c) ==> s.cells[c].waiting.Some?)
            && exists c :: 0 <= c < |s.cells| && Brings(s, p, c))
  }

  predicate NoDuplicates(q: seq<Pid>) {
    forall i, j :: 0 <= i < j < |q| ==> q[i] != q[j]
  }

  /** Each process is in exactly one place: held by the loop (QUIESCENT), queued
      exactly once (INITIAL or READY), or neither (WAITING or DONE). */
  predicate Placed(s: Sys) {
    && NoDuplicates(s.ready)
    && (forall p :: p in s.ready ==> p < |s.procs|)
    && (s.held.Some? ==> s.held.value < |s.procs|)
    && forall p :: 0 <= p < |s.procs| ==>
         && (p in s.ready <==> s.procs[p].state in {INITIAL, READY})
         && (s.held == Some(p) <==> s.procs[p].state == QUIESCENT)
         && s.procs[p].state != ENABLING
  }

  predicate ProcsBehave(wr: Wiring, s: Sys)
    requires |wr.inputter| == |wr.outputter|
  {
    forall p :: 0 <= p < |s.procs| && s.procs[p].state !in {INITIAL, DONE} ==>
      Behaved(wr, p, s.procs[p].alt, s.procs[p].vars)
  }

  ghost predicate Inv(wr: Wiring, s: Sys) {
    && ValidWiring(wr, |s.procs|) && |s.cells| == |wr.inputter|
    && Placed(s) && ProcsBehave(wr, s)
    && (forall c :: 0 <= c < |s.cells| ==> CellOk(wr, s, c))
    && (forall p :: 0 <= p < |s.procs| ==> WaitingOk(s, p) && ReadyOk(s, p))
  }

  // ---------- the start ----------

  /** Every process has been started and every channel initialised. */
  ghost predicate Initial(wr: Wiring, s: Sys) {
    && ValidWiring(wr, |s.procs|) && |s.cells| == |wr.inputter|
    && s.held == None && NoDuplicates(s.ready)
    && (forall p :: p in s.ready <==> 0 <= p < |s.procs|)
    && (forall p :: 0 <= p < |s.procs| ==> s.procs[p].state == INITIAL)
    && (forall c :: 0 <= c < |s.cells| ==> s.cells[c] == Cell(None, None))
  }

  lemma InvAtStart(wr: Wiring, s: Sys)
    requires Initial(wr, s)
    ensures Inv(wr, s)
  {
  }

  lemma BehavedFits(wr: Wiring, p: Pid, pr: Proc, cells: seq<Cell>)
    requires |wr.inputter| == |wr.outputter| == |cells| && Behaved(wr, p, pr.alt, pr.vars)
    ensures AltFits(pr, cells) && ChannelsOnly(pr.alt.guards)
    ensures HasOutput(pr.alt.guards) ==> var h := pr.alt.guards[OutIndex(pr.alt.guards)];
                                         h.kind.chan < |cells| && wr.outputter[h.kind.chan] == p && h.kind.src < |pr.vars|
    ensures forall c :: 0 <= c < |cells| && Offers(pr.alt.guards, c) ==> wr.inputter[c] == p
  {
  }

  /** An iteration always finds a process in a state it can work on. */
  lemma InvCanStep(wr: Wiring, s: Sys)
    requires Inv(wr, s) && Running(s)
    ensures CanStep(s) && s.procs[Current(s)].state in {INITIAL, QUIESCENT, READY}
  {
    var p := Current(s);
    if s.held == None { assert s.ready[0] in s.ready; }
    assert p < |s.procs| && ReadyOk(s, p);
    if s.procs[p].state != INITIAL {
      BehavedFits(wr, p, s.procs[p], s.cells);
    }
  }

  /** A process that neither waits nor is ready is in no channel. */
  lemma AbsentUnlessCommitted(wr: Wiring, s: Sys, p: Pid)
    requires Inv(wr, s) && p < |s.procs|
    requires s.procs[p].state !in {WAITING, READY} || (s.procs[p].state == READY && HasOutput(s.procs[p].alt.guards))
    ensures Absent(s.cells, p)
  {
    forall c | 0 <= c < |s.cells| ensures s.cells[c].waiting != Some(p) {
      assert CellOk(wr, s, c);
    }
  }

  // ---------- what an iteration does ----------

  lemma TakenPlaced(wr: Wiring, s: Sys)
    requires Inv(wr, s) && Running(s)
    ensures var p, s1 := Current(s), Taken(s);
            && p < |s.procs| && p !in s1.ready && NoDuplicates(s1.ready)
            && (forall r :: r != p ==> (r in s1.ready <==> r in s.ready))
            && (forall r :: 0 <= r < |s.procs| && r != p ==> s.procs[r].state != QUIESCENT)
  {
    if s.held == None {
      assert s.ready[0] in s.ready;
      assert s.ready == [s.ready[0]] + s.ready[1..];
    }
  }

  /** The process runs its code: it has been in no channel and no channel changes. */
  lemma InvRun(wr: Wiring, s: Sys, s': Sys, o: Outcome, done: bool)
    requires Inv(wr, s) && Running(s) && Absent(s.cells, Current(s))
    requires Behaved(wr, Current(s), o.alt, o.vars)
    requires var p, s1 := Current(s), Taken(s);
             p < |s.procs| && s' == SetProc(s1, p, Proc(if done then DONE else QUIESCENT, o.alt, o.vars)).
                                      (held := if done then None else Some(p))
    ensures Inv(wr, s')
  {
    var p := Current(s);
    TakenPlaced(wr, s);
    assert forall r :: 0 <= r < |s.procs| && r != p ==> s'.procs[r] == s.procs[r];
    forall c | 0 <= c < |s'.cells| ensures CellOk(wr, s', c) {
      assert CellOk(wr, s, c);
    }
    forall r | 0 <= r < |s'.procs| ensures WaitingOk(s', r) && ReadyOk(s', r) {
      assert WaitingOk(s, r) && ReadyOk(s, r);
      if r != p && s.procs[r].state == READY && !HasOutput(s.procs[r].alt.guards) {
        var c :| 0 <= c < |s.cells| && Brings(s, r, c);
        assert Brings(s', r, c);
      }
    }
  }

  /** The process waits in the channels of all its inputs. */
  lemma InvWait(wr: Wiring, s: Sys, s': Sys, alt: Alternation, cells: seq<Cell>)
    requires Inv(wr, s) && Running(s) && Current(s) < |s.procs| && Absent(s.cells, Current(s))
    requires var pr := s.procs[Current(s)];
             && pr.state == QUIESCENT && alt == pr.alt.(index := alt.index, count := alt.count)
             && alt.index < |alt.guards| && alt.count == |alt.guards| - 1
             && !HasOutput(alt.guards) && !HasSkip(alt.guards)
    requires Joined(s.cells, cells, Current(s))
    requires forall c :: 0 <= c < |cells| ==> (cells[c].waiting == Some(Current(s)) <==> Offers(alt.guards, c))
    requires var p, s1 := Current(s), Taken(s);
             s' == SetProc(s1, p, s.procs[p].(state := WAITING, alt := alt)).(cells := cells, held := None)
    ensures Inv(wr, s')
  {
    var p := Current(s);
    TakenPlaced(wr, s);
    BehavedFits(wr, p, s.procs[p], s.cells);
    assert forall r :: 0 <= r < |s.procs| && r != p ==> s'.procs[r] == s.procs[r];
    forall c | 0 <= c < |s'.cells| ensures CellOk(wr, s', c) {
      assert CellOk(wr, s, c);
    }
    forall r | 0 <= r < |s'.procs| ensures WaitingOk(s', r) && ReadyOk(s', r) {
      assert WaitingOk(s, r) && ReadyOk(s, r);
      if r != p && s.procs[r].state == READY && !HasOutput(s.procs[r].alt.guards) {
        var c :| 0 <= c < |s.cells| && Brings(s, r, c);
        assert Brings(s', r, c);
      }
    }
  }

  /** Waking a waiting process moves it to the end of the ready queue. */
  lemma WakePlaced(s: Sys, q: Pid)
    requires q < |s.procs| && NoDuplicates(s.ready) && (forall r :: r in s.ready ==> r < |s.procs|)
    requires q in s.ready <==> s.procs[q].state in {INITIAL, READY}
    requires s.procs[q].state in {WAITING, READY}
    ensures var s' := ReadyProcess(Intended, s, q);
            && s' == s.(procs := s.procs[q := s.procs[q].(state := READY)],
                        ready := if s.procs[q].state == WAITING then s.ready + [q] else s.ready)
            && NoDuplicates(s'.ready) && (forall r :: r in s'.ready <==> r in s.ready || r == q)
  {
  }

  /** The outputter takes the channel over and its waiting inputter is woken. */
  lemma InvCommitOutput(wr: Wiring, s: Sys, s': Sys, alt: Alternation, c: nat, x: nat)
    requires Inv(wr, s) && Running(s) && Current(s) < |s.procs| && Absent(s.cells, Current(s))
    requires var pr := s.procs[Current(s)];
             && pr.state == QUIESCENT && alt == pr.alt.(index := alt.index, count := alt.count)
             && alt.index < |alt.guards| && alt.count == |alt.guards| - 1 && OutputsOn(pr, c, x) && c < |s.cells|
    requires var p, s1 := Current(s), Taken(s);
             s' == ReadyPartner(Intended, SetProc(s1, p, s.procs[p].(state := WAITING, alt := alt)).
                                            (cells := s.cells[c := Cell(Some(p), Some(Address(p, x)))]), s.cells[c].waiting).(held := None)
    ensures Inv(wr, s')
  {
    var p := Current(s);
    TakenPlaced(wr, s);
    BehavedFits(wr, p, s.procs[p], s.cells);
    assert CellOk(wr, s, c);
    var s2 := SetProc(Taken(s), p, s.procs[p].(state := WAITING, alt := alt)).
                (cells := s.cells[c := Cell(Some(p), Some(Address(p, x)))]);
    if s.cells[c].waiting.Some? {
      WakePlaced(s2, s.cells[c].waiting.value);
    }
    InvOfferRest(wr, s, s', alt, c, x);
  }

  /** What an offer of variable `x` on channel `c` leaves of the processes and channels. */
  ghost predicate OfferEffect(wr: Wiring, s: Sys, s': Sys, alt: Alternation, c: nat, x: nat) {
    && Inv(wr, s) && Running(s) && Current(s) < |s.procs| && c < |s.cells| && Absent(s.cells, Current(s))
    && var p := Current(s);
       var pr := s.procs[p];
       && pr.state == QUIESCENT && OutputsOn(pr, c, x)
       && alt == pr.alt.(index := alt.index, count := alt.count) && alt.index < |alt.guards| && alt.count == |alt.guards| - 1
       && |s'.procs| == |s.procs| && s'.cells == s.cells[c := Cell(Some(p), Some(Address(p, x)))]
       && s'.procs[p] == pr.(state := WAITING, alt := alt)
       && (forall r :: 0 <= r < |s.procs| && r != p ==>
             s'.procs[r] == if s.cells[c].waiting == Some(r) then s.procs[r].(state := READY) else s.procs[r])
  }

  lemma InvOfferCell(wr: Wiring, s: Sys, s': Sys, alt: Alternation, c: nat, x: nat, b: nat)
    requires OfferEffect(wr, s, s', alt, c, x) && b < |s.cells|
    ensures CellOk(wr, s', b)
  {
    BehavedFits(wr, Current(s), s.procs[Current(s)], s.cells);
    assert CellOk(wr, s, c);
    assert CellOk(wr, s, b);
  }

  lemma InvOfferProc(wr: Wiring, s: Sys, s': Sys, alt: Alternation, c: nat, x: nat, r: Pid)
    requires OfferEffect(wr, s, s', alt, c, x) && r < |s.procs|
    ensures WaitingOk(s', r) && ReadyOk(s', r)
  {
    BehavedFits(wr, Current(s), s.procs[Current(s)], s.cells);
    assert CellOk(wr, s, c);
    assert WaitingOk(s, r) && ReadyOk(s, r);
    if r != Current(s) && s.procs[r].state in {WAITING, READY} {
      BehavedFits(wr, r, s.procs[r], s.cells);
      if s.cells[c].waiting == Some(r) {
        assert Brings(s', r, c);
      } else if s.procs[r].state == READY && !HasOutput(s.procs[r].alt.guards) {
        var b :| 0 <= b < |s.cells| && Brings(s, r, b);
        assert Brings(s', r, b);
      }
    }
  }

  lemma InvOfferRest(wr: Wiring, s: Sys, s': Sys, alt: Alternation, c: nat, x: nat)
    requires OfferEffect(wr, s, s', alt, c, x) && Placed(s')
    ensures Inv(wr, s')
  {
    forall b | 0 <= b < |s'.cells| ensures CellOk(wr, s', b) {
      InvOfferCell(wr, s, s', alt, c, x, b);
    }
    forall r | 0 <= r < |s'.procs| ensures WaitingOk(s', r) && ReadyOk(s', r) {
      InvOfferProc(wr, s, s', alt, c, x, r);
    }
    forall r | 0 <= r < |s'.procs| && s'.procs[r].state !in {INITIAL, DONE}
      ensures Behaved(wr, r, s'.procs[r].alt, s'.procs[r].vars)
    {
      assert CellOk(wr, s, c);
    }
  }

  /** The inputter takes the value, leaves every channel and wakes the outputter. */
  lemma InvTake(wr: Wiring, s: Sys, s': Sys, o: Outcome, c: nat)
    requires Inv(wr, s) && Running(s) && Current(s) < |s.procs| && c < |s.cells|
    requires s.procs[Current(s)].state in {QUIESCENT, READY} && Offers(s.procs[Current(s)].alt.guards, c)
    requires s.cells[c].waiting.Some? && s.cells[c].waiting != Some(Current(s)) && Behaved(wr, Current(s), o.alt, o.vars)
    requires var p := Current(s);
             var s2 := Taken(s).(cells := Cleared(s.cells, p)[c := s.cells[c].(waiting := None)]);
             s' == SetProc(ReadyPartner(Intended, s2, s.cells[c].waiting), p, Proc(if o.done then DONE else QUIESCENT, o.alt, o.vars)).
                     (held := if o.done then None else Some(p))
    ensures Inv(wr, s')
  {
    var p, q := Current(s), s.cells[c].waiting.value;
    TakenPlaced(wr, s);
    BehavedFits(wr, p, s.procs[p], s.cells);
    assert CellOk(wr, s, c);
    var s2 := Taken(s).(cells := Cleared(s.cells, p)[c := s.cells[c].(waiting := None)]);
    WakePlaced(s2, q);
    InvTakeRest(wr, s, s', o, c);
  }

  /** What a transfer on channel `c` leaves of the other processes and channels. */
  ghost predicate TakeEffect(wr: Wiring, s: Sys, s': Sys, o: Outcome, c: nat) {
    && Inv(wr, s) && Running(s) && Current(s) < |s.procs| && c < |s.cells|
    && s.procs[Current(s)].state in {QUIESCENT, READY} && Offers(s.procs[Current(s)].alt.guards, c)
    && s.cells[c].waiting.Some? && s.cells[c].waiting != Some(Current(s)) && Behaved(wr, Current(s), o.alt, o.vars)
    && |s'.procs| == |s.procs| && s'.cells == Cleared(s.cells, Current(s))[c := s.cells[c].(waiting := None)]
    && s'.procs[Current(s)] == Proc(if o.done then DONE else QUIESCENT, o.alt, o.vars)
    && (forall r :: 0 <= r < |s.procs| && r != Current(s) ==>
          s'.procs[r] == if s.cells[c].waiting == Some(r) then s.procs[r].(state := READY) else s.procs[r])
  }

  lemma InvTakeCell(wr: Wiring, s: Sys, s': Sys, o: Outcome, c: nat, b: nat)
    requires TakeEffect(wr, s, s', o, c) && b < |s.cells|
    ensures CellOk(wr, s', b)
  {
    BehavedFits(wr, Current(s), s.procs[Current(s)], s.cells);
    assert CellOk(wr, s, c);
    assert CellOk(wr, s, b);
  }

  lemma InvTakeProc(wr: Wiring, s: Sys, s': Sys, o: Outcome, c: nat, r: Pid)
    requires TakeEffect(wr, s, s', o, c) && r < |s.procs|
    ensures WaitingOk(s', r) && ReadyOk(s', r)
  {
    BehavedFits(wr, Current(s), s.procs[Current(s)], s.cells);
    assert CellOk(wr, s, c);
    assert WaitingOk(s, r) && ReadyOk(s, r);
    if r != Current(s) && s.procs[r].state in {WAITING, READY} {
      BehavedFits(wr, r, s.procs[r], s.cells);
      forall b | 0 <= b < |s.cells| && Offers(s.procs[r].alt.guards, b) ensures s'.cells[b] == s.cells[b] {
        assert CellOk(wr, s, b);
      }
      if s.procs[r].state == READY && !HasOutput(s.procs[r].alt.guards) {
        var b :| 0 <= b < |s.cells| && Brings(s, r, b);
        assert Brings(s', r, b);
      }
    }
  }

  lemma InvTakeRest(wr: Wiring, s: Sys, s': Sys, o: Outcome, c: nat)
    requires TakeEffect(wr, s, s', o, c) && Placed(s')
    ensures Inv(wr, s')
  {
    forall b | 0 <= b < |s'.cells| ensures CellOk(wr, s', b) {
      InvTakeCell(wr, s, s', o, c, b);
    }
    forall r | 0 <= r < |s'.procs| ensures WaitingOk(s', r) && ReadyOk(s', r) {
      InvTakeProc(wr, s, s', o, c, r);
    }
    forall r | 0 <= r < |s'.procs| && s'.procs[r].state !in {INITIAL, DONE}
      ensures Behaved(wr, r, s'.procs[r].alt, s'.procs[r].vars)
    {
      assert CellOk(wr, s, c);
    }
  }
}
