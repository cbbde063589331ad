/** Process records and the linked ready queues of sched.c, one per priority. */
module ReadyQueues {
  import opened Types
  import opened Sequences

  const LEVELS: nat := 8

  class Process {
    const id: Pid
    var next: Process?
    var pri: nat
    var state: PState
    var guards: seq<Guard>
    var index: nat
    var count: int
    var altPri: bool
    var vars: seq<int>

    constructor (id: Pid, pri: nat, vars: seq<int>)
      ensures this.id == id && this.pri == pri && this.vars == vars && state == INITIAL && next == null && guards == []
    {
      this.id, this.pri, this.vars := id, pri, vars;
      state, next, guards := INITIAL, null, [];
      index, count, altPri := 0, 0, false;
    }

    /** The process's code has run: it leaves an ALT, variables and perhaps its termination. */
    method Leave(alt: Alternation, vars: seq<int>, done: bool)
      modifies `guards, `index, `count, `altPri, `vars, `state
      ensures Alternation(guards, index, count, altPri) == alt && this.vars == vars
      ensures state == if done then DONE else old(state)
    {
      guards, index, count, altPri := alt.guards, alt.index, alt.count, alt.pri;
      this.vars := vars;
      if done {
        state := DONE;
      }
    }
  }

  // ---------- the priority mask ----------

  /** The bit of a priority level. */
  function Mask(pri: nat): bv8
    requires pri < LEVELS
  {
    if pri == 0 then 1 else if pri == 1 then 2 else if pri == 2 then 4 else if pri == 3 then 8
    else if pri == 4 then 16 else if pri == 5 then 32 else if pri == 6 then 64 else 128
  }

  function HighestReady(ready: bv8): nat {
    if ready & 0xF0 != 0 then
      if ready & 0xC0 != 0 then (if ready & 0x80 != 0 then 7 else 6)
      else (if ready & 0x20 != 0 then 5 else 4)
    else
      if ready & 0x0C != 0 then (if ready & 0x08 != 0 then 3 else 2)
      else (if ready & 0x02 != 0 then 1 else 0)
  }

  /** highest_ready is the highest level whose bit is set, or 0. */
  lemma HighestIsHighest(ready: bv8)
    ensures HighestReady(ready) < LEVELS
    ensures forall l :: HighestReady(ready) < l < LEVELS ==> ready & Mask(l) == 0
    ensures HighestReady(ready) > 0 ==> ready & Mask(HighestReady(ready)) != 0
  {
  }

  lemma ClearBit(m: bv8, l: nat, k: nat)
    requires l < LEVELS && k < LEVELS
    ensures m & !Mask(l) & Mask(k) != 0 <==> k != l && m & Mask(k) != 0
  {
  }

  /** The bit of a level is set exactly when its queue is not empty. */
  predicate MaskShows(m: bv8, q: seq<seq<Process>>)
    requires |q| == LEVELS
  {
    forall l :: 0 <= l < LEVELS ==> (m & Mask(l) != 0 <==> q[l] != [])
  }

  lemma SetLevel(m: bv8, q: seq<seq<Process>>, l: nat, s: seq<Process>)
    requires |q| == LEVELS && l < LEVELS && MaskShows(m, q) && s != []
    ensures MaskShows(m | Mask(l), q[l := s])
  {
  }

  lemma ClearLevel(m: bv8, q: seq<seq<Process>>, l: nat)
    requires |q| == LEVELS && l < LEVELS && MaskShows(m, q)
    ensures MaskShows(m & !Mask(l), q[l := []])
  {
    forall k | 0 <= k < LEVELS ensures m & !Mask(l) & Mask(k) != 0 <==> q[l := []][k] != [] {
      ClearBit(m, l, k);
    }
  }

  lemma SameMask(m: bv8, q: seq<seq<Process>>, q': seq<seq<Process>>)
    requires |q| == |q'| == LEVELS && MaskShows(m, q)
    requires forall l :: 0 <= l < LEVELS ==> (q[l] == [] <==> q'[l] == [])
    ensures MaskShows(m, q')
  {
  }

  // ---------- the linked queues ----------

  /** `s` is the list from `h` to `t` along the next links. */
  ghost predicate Linked(s: seq<Process>, h: Process?, t: Process?)
    reads s`next
  {
    if s == [] then h == null && t == null
    else h == s[0] && t == s[|s| - 1] && s[|s| - 1].next == null
         && forall i :: 0 <= i < |s| - 1 ==> s[i].next == s[i + 1]
  }

  ghost predicate Distinct(s: seq<Process>) {
    forall i, j :: 0 <= i < j < |s| ==> s[i] != s[j]
  }

  class ReadyQueues {
    const head: array<Process?>
    const tail: array<Process?>
    var mask: bv8
    ghost var q: seq<seq<Process>>
    ghost const universe: set<Process>

    /** The list of level `l` is `q[l]`. */
    ghost predicate ListOk(l: nat)
      requires l < LEVELS && Shape()
      reads `q, head, tail, universe`next, universe`pri
    {
      && (forall p :: p in q[l] ==> p in universe && p.pri == l)
      && Distinct(q[l]) && Linked(q[l], head[l], tail[l])
    }

    ghost predicate Shape()
      reads `q
    {
      |q| == LEVELS && head.Length == tail.Length == LEVELS && head != tail
    }

    ghost predicate Lists()
      reads `q, head, tail, universe`next, universe`pri
    {
      Shape() && forall l :: 0 <= l < LEVELS ==> ListOk(l)
    }

    ghost predicate Valid()
      reads this, head, tail, universe`next, universe`pri
    {
      Lists() && MaskShows(mask, q)
    }

    constructor (ghost universe: set<Process>)
      ensures Valid() && fresh(head) && fresh(tail) && this.universe == universe
      ensures forall l :: 0 <= l < LEVELS ==> q[l] == []
    {
      head := new Process?[LEVELS](_ => null);
      tail := new Process?[LEVELS](_ => null);
      mask := 0;
      q := seq(LEVELS, _ => []);
      this.universe := universe;
    }

    method IsEmpty(pri: nat) returns (empty: bool)
      requires Valid() && pri < LEVELS
      ensures empty <==> q[pri] == []
    {
      assert ListOk(pri);
      empty := head[pri] == null;
    }

    /** The highest level with a queued process; the idle level 0 if there is none. */
    method Highest() returns (pri: nat)
      requires Valid()
      ensures pri < LEVELS && (pri > 0 ==> q[pri] != []) && forall l :: pri < l < LEVELS ==> q[l] == []
    {
      pri := HighestReady(mask);
      HighestIsHighest(mask);
    }

    method Unlink(pri: nat) returns (proc: Process?)
      requires Lists() && pri < LEVELS
      modifies head, tail, `q
      ensures Lists()
      ensures if old(q)[pri] == [] then proc == null && q == old(q)
              else proc == old(q)[pri][0] && q == old(q)[pri := old(q)[pri][1..]]
      ensures head[pri] == null <==> q[pri] == []
    {
      assert ListOk(pri);
      proc := head[pri];
      if proc != null {
        head[pri] := proc.next;
        if head[pri] == null {
          tail[pri] := null;
        }
        q := q[pri := q[pri][1..]];
        forall l | 0 <= l < LEVELS ensures ListOk(l) {
          assert old(ListOk(l));
        }
      }
      assert ListOk(pri);
    }

    /** Shows the level as empty, or as not empty. */
    method ShowEmpty(pri: nat, ghost was: seq<seq<Process>>)
      requires pri < LEVELS && |was| == LEVELS && MaskShows(mask, was)
      modifies `mask
      ensures MaskShows(mask, was[pri := []])
    {
      ClearLevel(mask, was, pri);
      mask := mask & !Mask(pri);
    }

    method ShowReady(pri: nat, ghost was: seq<seq<Process>>, ghost s: seq<Process>)
      requires pri < LEVELS && |was| == LEVELS && MaskShows(mask, was) && s != []
      modifies `mask
      ensures MaskShows(mask, was[pri := s])
    {
      SetLevel(mask, was, pri, s);
      mask := mask | Mask(pri);
    }

    /** Removes and returns the head of the queue of a level, null if it is empty. */
    method Take(pri: nat) returns (proc: Process?)
      requires Valid() && pri < LEVELS
      modifies this, head, tail
      ensures Valid()
      ensures if old(q)[pri] == [] then proc == null && q == old(q)
              else proc == old(q)[pri][0] && q == old(q)[pri := old(q)[pri][1..]]
    {
      ghost var was := q;
      proc := Unlink(pri);
      if proc != null && head[pri] == null {
        ShowEmpty(pri, was);
      } else {
        SameMask(mask, was, q);
      }
    }

    method Link(proc: Process) returns (first: bool)
      requires Lists() && proc in universe && proc.pri < LEVELS
      modifies head, tail, universe`next, `q
      ensures Lists()
      ensures q == old(q)[proc.pri := LinkLast(old(q)[proc.pri], proc)] && first == (old(q)[proc.pri] == [])
    {
      var pri := proc.pri;
      assert ListOk(pri);
      ghost var s := q[pri];
      if tail[pri] != null {
        tail[pri].next := proc;
      }
      tail[pri] := proc;
      proc.next := null;
      first := head[pri] == null;
      if first {
        head[pri] := proc;
      }
      q := q[pri := LinkLast(s, proc)];
      if proc in s {
        assert q[pri] == s[..IndexOf(s, proc) + 1];
      } else {
        assert q[pri] == s + [proc];
      }
      assert ListOk(pri);
      forall l | 0 <= l < LEVELS && l != pri ensures ListOk(l) {
        assert old(ListOk(l));
      }
    }

    /** Links a process in at the end of the queue of its level. One that is
        already queued there becomes the end of the queue. */
    method Append(proc: Process)
      requires Valid() && proc in universe && proc.pri < LEVELS
      modifies this, head, tail, universe`next
      ensures Valid()
      ensures q == old(q)[proc.pri := LinkLast(old(q)[proc.pri], proc)]
    {
      ghost var was := q;
      var first := Link(proc);
      if first {
        ShowReady(proc.pri, was, q[proc.pri]);
      } else {
        SameMask(mask, was, q);
      }
    }
  }
}
