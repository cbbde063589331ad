/** Insertion into and deletion from the middle of a sequence. */
module Sequences {

  function InsertAt<T>(q: seq<T>, n: nat, e: T): (r: seq<T>)
    requires n <= |q|
    ensures |r| == |q| + 1 && r[n] == e
    ensures forall i :: 0 <= i < n ==> r[i] == q[i]
    ensures forall i :: n < i < |r| ==> r[i] == q[i - 1]
  {
    q[..n] + [e] + q[n..]
  }

  function DeleteAt<T>(q: seq<T>, n: nat): (r: seq<T>)
    requires n < |q|
    ensures |r| == |q| - 1
    ensures forall i :: 0 <= i < n ==> r[i] == q[i]
    ensures forall i :: n <= i < |r| ==> r[i] == q[i + 1]
  {
    q[..n] + q[n + 1..]
  }

  lemma InsertAtElements<T>(q: seq<T>, n: nat, e: T)
    requires n <= |q|
    ensures multiset(InsertAt(q, n, e)) == multiset(q) + multiset{e}
  {
    assert q == q[..n] + q[n..];
  }

  lemma DeleteAtElements<T>(q: seq<T>, n: nat)
    requires n < |q|
    ensures multiset(DeleteAt(q, n)) + multiset{q[n]} == multiset(q)
  {
    assert q == q[..n] + ([q[n]] + q[n + 1..]);
  }

  lemma DeleteUndoesInsert<T>(q: seq<T>, n: nat, e: T)
    requires n <= |q|
    ensures DeleteAt(InsertAt(q, n, e), n) == q
  {
  }

  /** The position of `p` in `q`, |q| if it is not there. */
  function IndexOf<T(==)>(q: seq<T>, p: T): (n: nat)
    ensures n <= |q| && (n < |q| ==> q[n] == p) && forall i :: 0 <= i < n ==> q[i] != p
  {
    if q == [] || q[0] == p then 0 else 1 + IndexOf(q[1..], p)
  }

  /** Linking a record in at the end of an intrusive list: a record that is
      already in the list becomes its end. */
  function LinkLast<T(==)>(q: seq<T>, p: T): seq<T> {
    if IndexOf(q, p) < |q| then q[..IndexOf(q, p) + 1] else q + [p]
  }

  lemma ConcatFirst<T>(a: seq<T>, b: seq<T>)
    requires a != []
    ensures a + b == [a[0]] + (a[1..] + b)
  {
  }
}
