/** Bounded waiting of the fair ALT. */
module AltFairness {
  import opened Types
  import opened Alt
  import opened AltLaws

  /** How many steps behind guard `a` guard `b` comes in cyclic order: 1..n. */
  function Distance(a: nat, b: nat, n: nat): (d: nat)
    requires a < n && b < n
    ensures 1 <= d <= n
  {
    if a < b then b - a else b - a + n
  }

  /** One run through a fair ALT: it is enabled in `before` and disabled in
      `after`; the guards may be switched on and off between runs. */
  datatype Round = Round(guards: seq<Guard>, before: World, clock: seq<nat>, after: World, clock': seq<nat>)

  predicate FitsRound(r: Round, n: nat) {
    |r.guards| == n && Fits(r.guards, r.before) && Fits(r.guards, r.after) && |r.clock| == |r.clock'| == n
  }

  /** The branch selected when the branch selected last was `last`. Enabling
      overwrites the cursor on the way. */
  function SelectedAfter(last: nat, p: Pid, r: Round, n: nat): (i: nat)
    requires FitsRound(r, n) && last < n
    ensures i < n
  {
    var alt := Alternation(r.guards, last, 0, false);
    var e := EnableAlt(alt, p, r.clock, r.before);
    EnableKeepsShape(r.guards, p, r.clock, r.before, FirstGuard(alt), 0, None);
    DisableAlt(alt.(index := e.index, count := e.count), p, r.clock', r.after).index
  }

  /** Guard `b` is active and ready when the ALT is disabled. */
  predicate StaysReady(last: nat, p: Pid, r: Round, n: nat, b: nat)
    requires FitsRound(r, n) && last < n && b < n
  {
    SelectableAt(r.after, p, r.guards, r.clock', Plus1Mod(last, n), Distance(last, b, n) - 1)
  }

  /** A ready guard is selected, or comes strictly closer to its turn. */
  lemma CloserToTurn(last: nat, p: Pid, r: Round, n: nat, b: nat)
    requires FitsRound(r, n) && last < n && b < n && StaysReady(last, p, r, n, b)
    ensures var i := SelectedAfter(last, p, r, n);
            i == b || Distance(i, b, n) < Distance(last, b, n)
  {
    var alt := Alternation(r.guards, last, 0, false);
    var first, turn := FirstGuard(alt), Distance(last, b, n) - 1;
    var e := EnableAlt(alt, p, r.clock, r.before);
    EnableKeepsShape(r.guards, p, r.clock, r.before, first, 0, None);
    assert At(first, 0, n) == first && At(first, turn, n) == b;
    var alt' := alt.(index := e.index, count := e.count);
    var s := DisableSelectsFirstReady(alt', first, p, r.clock', r.after);
  }

  function LastSelected(last: nat, p: Pid, rounds: seq<Round>, n: nat): (i: nat)
    requires last < n && forall r :: r in rounds ==> FitsRound(r, n)
    ensures i < n
    decreases |rounds|
  {
    if rounds == [] then last
    else LastSelected(SelectedAfter(last, p, rounds[0], n), p, rounds[1..], n)
  }

  predicate StaysReadyThroughout(last: nat, p: Pid, rounds: seq<Round>, n: nat, b: nat)
    requires last < n && b < n && forall r :: r in rounds ==> FitsRound(r, n)
    decreases |rounds|
  {
    rounds != [] ==>
      && StaysReady(last, p, rounds[0], n, b)
      && StaysReadyThroughout(SelectedAfter(last, p, rounds[0], n), p, rounds[1..], n, b)
  }

  /** A guard that stays active and ready is selected within n selections of its ALT. */
  lemma {:induction false} BoundedWaiting(last: nat, p: Pid, rounds: seq<Round>, n: nat, b: nat) returns (m: nat)
    requires last < n && b < n && (forall r :: r in rounds ==> FitsRound(r, n))
    requires StaysReadyThroughout(last, p, rounds, n, b) && Distance(last, b, n) <= |rounds|
    ensures 0 < m <= Distance(last, b, n) <= n && m <= |rounds|
    ensures LastSelected(last, p, rounds[..m], n) == b
    decreases |rounds|
  {
    var i := SelectedAfter(last, p, rounds[0], n);
    CloserToTurn(last, p, rounds[0], n, b);
    if i == b {
      m := 1;
      assert rounds[..1][1..] == [];
    } else {
      var m' := BoundedWaiting(i, p, rounds[1..], n, b);
      m := m' + 1;
      assert rounds[..m][1..] == rounds[1..][..m'];
    }
  }
}
