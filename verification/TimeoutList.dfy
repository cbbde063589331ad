/** The timeout queue of timer.c as a sequence of entries in list order. */
module TimeoutList {
  import opened Types
  import opened Sequences

  predicate Sorted(q: seq<Entry>) {
    forall i, j :: 0 <= i < j < |q| ==> q[i].time <= q[j].time
  }

  /** The position at which an entry due at `time` is linked in: behind the
      longest run of entries at the front that are due no later. */
  function Place(q: seq<Entry>, time: nat): (n: nat)
    ensures n <= |q|
    ensures forall i :: 0 <= i < n ==> q[i].time <= time
    ensures n < |q| ==> time < q[n].time
  {
    if q == [] || time < q[0].time then 0 else 1 + Place(q[1..], time)
  }

  function Insert(q: seq<Entry>, e: Entry): seq<Entry> {
    InsertAt(q, Place(q, e.time), e)
  }

  /** The position at which the search for (time, proc) stops: the first entry
      that is later, or is due at `time` and belongs to `proc`. */
  function Stop(q: seq<Entry>, time: nat, proc: Pid): (n: nat)
    ensures n <= |q|
    ensures n < |q| ==> q[n].time > time || q[n] == Entry(time, proc)
    ensures forall i :: 0 <= i < n ==> q[i].time <= time && q[i] != Entry(time, proc)
  {
    if q == [] || q[0].time > time || q[0] == Entry(time, proc) then 0 else 1 + Stop(q[1..], time, proc)
  }

  /** The search goes past an entry due at `time` that belongs to another process. */
  lemma StopsLater(q: seq<Entry>, time: nat, proc: Pid, n: nat)
    requires n < |q| && n <= Stop(q, time, proc) && q[n].time == time && q[n].proc != proc
    ensures n < Stop(q, time, proc)
  {
  }

  lemma StopsHere(q: seq<Entry>, time: nat, proc: Pid, n: nat)
    requires n <= |q| && n <= Stop(q, time, proc)
    requires n < |q| ==> q[n].time >= time && (q[n].time == time ==> q[n].proc == proc)
    ensures n == Stop(q, time, proc)
  {
  }

  function Remove(q: seq<Entry>, time: nat, proc: Pid): seq<Entry> {
    var n := Stop(q, time, proc);
    if n < |q| && q[n] == Entry(time, proc) then DeleteAt(q, n) else q
  }

  /** The entries of processes other than `p`, in order. */
  function Others(q: seq<Entry>, p: Pid): seq<Entry> {
    if q == [] then [] else if q[0].proc == p then Others(q[1..], p) else [q[0]] + Others(q[1..], p)
  }

  lemma {:induction false} OthersConcat(a: seq<Entry>, b: seq<Entry>, p: Pid)
    ensures Others(a + b, p) == Others(a, p) + Others(b, p)
  {
    if a == [] {
      assert a + b == b;
    } else {
      assert (a + b)[1..] == a[1..] + b;
      OthersConcat(a[1..], b, p);
    }
  }

  lemma InsertSorted(q: seq<Entry>, n: nat, e: Entry)
    requires Sorted(q) && n <= |q|
    requires forall i :: 0 <= i < n ==> q[i].time <= e.time
    requires n < |q| ==> e.time < q[n].time
    ensures Sorted(InsertAt(q, n, e))
    ensures forall i :: 0 <= i < |q| ==> (i < n <==> q[i].time <= e.time)
  {
  }

  /** Insertion keeps deadline order and puts an entry behind every entry due no
      later: ties are served first come, first served. */
  lemma InsertIsStable(q: seq<Entry>, e: Entry)
    requires Sorted(q)
    ensures Sorted(Insert(q, e))
    ensures var n := Place(q, e.time);
            Insert(q, e)[n] == e
            && (forall i :: 0 <= i < |q| ==> (i < n <==> q[i].time <= e.time))
            && DeleteAt(Insert(q, e), n) == q
  {
    InsertSorted(q, Place(q, e.time), e);
    DeleteUndoesInsert(q, Place(q, e.time), e);
  }

  lemma InsertConserves(q: seq<Entry>, e: Entry)
    ensures multiset(Insert(q, e)) == multiset(q) + multiset{e}
  {
    InsertAtElements(q, Place(q, e.time), e);
  }

  /** In a sorted list the search stops at the first entry for (time, proc) when there is one. */
  lemma StopFindsFirst(q: seq<Entry>, time: nat, proc: Pid)
    requires Sorted(q)
    ensures var n := Stop(q, time, proc);
            && Entry(time, proc) !in q[..n]
            && (Entry(time, proc) in q <==> n < |q| && q[n] == Entry(time, proc))
  {
  }

  /** Removal deletes the first entry for (time, proc), and nothing when there is none. */
  lemma RemoveFirstMatch(q: seq<Entry>, time: nat, proc: Pid)
    requires Sorted(q)
    ensures Sorted(Remove(q, time, proc))
    ensures multiset(Remove(q, time, proc)) == multiset(q) - multiset{Entry(time, proc)}
    ensures Entry(time, proc) !in q ==> Remove(q, time, proc) == q
    ensures Entry(time, proc) in q ==>
              var n := Stop(q, time, proc);
              n < |q| && q[n] == Entry(time, proc) && Entry(time, proc) !in q[..n]
              && Remove(q, time, proc) == DeleteAt(q, n)
  {
    StopFindsFirst(q, time, proc);
    var n := Stop(q, time, proc);
    if Entry(time, proc) in q {
      DeleteAtElements(q, n);
    } else {
      assert multiset(q)[Entry(time, proc)] == 0;
    }
  }

  /** Removing an entry that was not queued before it was inserted restores the list. */
  lemma RemoveUndoesInsert(q: seq<Entry>, e: Entry)
    requires Sorted(q) && e !in q
    ensures Remove(Insert(q, e), e.time, e.proc) == q
  {
  }

  /** Neither operation disturbs another process's timeouts. */
  lemma InsertKeepsOthers(q: seq<Entry>, e: Entry)
    ensures Others(Insert(q, e), e.proc) == Others(q, e.proc)
  {
    var n := Place(q, e.time);
    OthersConcat(q[..n], [e], e.proc);
    OthersConcat(q[..n] + [e], q[n..], e.proc);
    OthersConcat(q[..n], q[n..], e.proc);
    assert q == q[..n] + q[n..];
  }

  lemma RemoveKeepsOthers(q: seq<Entry>, time: nat, proc: Pid)
    ensures Others(Remove(q, time, proc), proc) == Others(q, proc)
  {
    var n := Stop(q, time, proc);
    if n < |q| && q[n] == Entry(time, proc) {
      OthersConcat(q[..n], q[n + 1..], proc);
      OthersConcat(q[..n], q[n..], proc);
      assert q == q[..n] + q[n..];
      assert q[n..][1..] == q[n + 1..];
    }
  }

  function Copies(q: seq<Entry>, e: Entry): nat {
    multiset(q)[e]
  }

  lemma InsertCopies(q: seq<Entry>, e: Entry, x: Entry)
    ensures Copies(Insert(q, e), x) == Copies(q, x) + if x == e then 1 else 0
  {
    InsertConserves(q, e);
  }

  lemma RemoveCopies(q: seq<Entry>, e: Entry, x: Entry)
    requires Sorted(q)
    ensures Copies(Remove(q, e.time, e.proc), x) == if x == e && Copies(q, x) > 0 then Copies(q, x) - 1 else Copies(q, x)
  {
    RemoveFirstMatch(q, e.time, e.proc);
  }
}
