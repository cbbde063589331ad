/** The linked timeout queue of timer.c. */
module TimerQueue {
  import opened Types
  import opened Sequences
  import opened TimeoutList
  import opened TimerLaws

  class Timeout {
    const proc: Pid
    const time: nat
    var next: Timeout?

    constructor (time: nat, proc: Pid)
      ensures this.time == time && this.proc == proc && next == null
    {
      this.time, this.proc, next := time, proc, null;
    }
  }

  function EntryOf(t: Timeout): Entry {
    Entry(t.time, t.proc)
  }

  function Entries(nodes: seq<Timeout>): (q: seq<Entry>)
    ensures |q| == |nodes| && forall i :: 0 <= i < |q| ==> q[i] == EntryOf(nodes[i])
  {
    seq(|nodes|, i requires 0 <= i < |nodes| => EntryOf(nodes[i]))
  }

  lemma EntriesInsert(nodes: seq<Timeout>, n: nat, t: Timeout)
    requires n <= |nodes|
    ensures Entries(InsertAt(nodes, n, t)) == InsertAt(Entries(nodes), n, EntryOf(t))
  {
  }

  lemma EntriesDelete(nodes: seq<Timeout>, n: nat)
    requires n < |nodes|
    ensures Entries(DeleteAt(nodes, n)) == DeleteAt(Entries(nodes), n)
  {
  }

  lemma NextIsLater(nodes: seq<Timeout>, n: nat)
    requires Sorted(Entries(nodes)) && n + 1 < |nodes|
    ensures nodes[n].time <= nodes[n + 1].time
  {
  }

  lemma InsertValue(nodes: seq<Timeout>, t: Timeout)
    requires Sorted(Entries(nodes)) && InRange(Entries(nodes)) && t.time < WIDTH
    ensures var r := Entries(InsertAt(nodes, Place(Entries(nodes), t.time), t));
            r == Insert(Entries(nodes), EntryOf(t)) && Sorted(r) && InRange(r)
  {
    var q, n := Entries(nodes), Place(Entries(nodes), t.time);
    EntriesInsert(nodes, n, t);
    InsertIsStable(q, EntryOf(t));
    InsertRange(q, n, EntryOf(t));
  }

  lemma RemoveValue(nodes: seq<Timeout>, time: nat, proc: Pid)
    requires Sorted(Entries(nodes)) && InRange(Entries(nodes))
    ensures var q, n := Entries(nodes), Stop(Entries(nodes), time, proc);
            if n < |nodes| && EntryOf(nodes[n]) == Entry(time, proc) then
              var r := Entries(DeleteAt(nodes, n)); r == Remove(q, time, proc) && Sorted(r) && InRange(r)
            else Remove(q, time, proc) == q
  {
    var q, n := Entries(nodes), Stop(Entries(nodes), time, proc);
    if n < |nodes| && q[n] == Entry(time, proc) {
      EntriesDelete(nodes, n);
      RemoveFirstMatch(q, time, proc);
      DeleteRange(q, n);
    }
  }

  class TimerQueue {
    var head: Timeout?
    var armed: Option<nat>
    ghost var nodes: seq<Timeout>
    ghost var pool: set<Timeout>

    /** The list from `head` along the next links. */
    ghost predicate Linked()
      reads `head, `nodes, `pool, pool
    {
      && (forall i :: 0 <= i < |nodes| ==> nodes[i] in pool)
      && (head == if nodes == [] then null else nodes[0])
      && (nodes != [] ==> nodes[|nodes| - 1].next == null)
      && (forall i :: 0 <= i < |nodes| - 1 ==> nodes[i].next == nodes[i + 1])
      && (forall i, j :: 0 <= i < j < |nodes| ==> nodes[i] != nodes[j])
    }

    ghost predicate Valid()
      reads `head, `nodes, `pool, pool
    {
      Linked() && Sorted(Entries(nodes)) && InRange(Entries(nodes))
    }

    /** The queue and its timer as a value. */
    ghost function View(): Timer
      reads this
    {
      Timer(Entries(nodes), armed)
    }

    constructor ()
      ensures Valid() && View() == Timer([], None) && pool == {}
    {
      head, armed, nodes, pool := null, None, [], {};
    }

    /** The last timeout due no later than `time` and the first one due later. */
    method FindPlace(time: nat) returns (prev: Timeout?, curr: Timeout?, ghost n: nat)
      requires Valid()
      ensures n == Place(Entries(nodes), time) && n <= |nodes|
      ensures prev == if n == 0 then null else nodes[n - 1]
      ensures curr == if n < |nodes| then nodes[n] else null
    {
      prev, curr, n := null, head, 0;
      while curr != null && time >= curr.time
        invariant n <= |nodes|
        invariant curr == if n < |nodes| then nodes[n] else null
        invariant prev == if n == 0 then null else nodes[n - 1]
        invariant n <= Place(Entries(nodes), time)
        decreases |nodes| - n
      {
        assert Entries(nodes)[n] == EntryOf(curr);
        prev, curr, n := curr, curr.next, n + 1;
      }
    }

    /** Links a timeout in between two neighbours; at the front it becomes the head. */
    method LinkBetween(timeout: Timeout, prev: Timeout?, curr: Timeout?, ghost n: nat)
      requires Linked() && timeout !in pool && n <= |nodes|
      requires prev == if n == 0 then null else nodes[n - 1]
      requires curr == if n < |nodes| then nodes[n] else null
      modifies `head, `nodes, `pool, pool`next, timeout`next
      ensures Linked() && nodes == InsertAt(old(nodes), n, timeout) && pool == old(pool) + {timeout}
    {
      if prev == null {
        head := timeout;
      } else {
        prev.next := timeout;
      }
      timeout.next := curr;
      nodes, pool := InsertAt(nodes, n, timeout), pool + {timeout};
    }

    /** Links a timeout in behind those due no later; tells whether it is the new head. */
    method LinkIn(timeout: Timeout) returns (first: bool)
      requires Valid() && timeout !in pool && timeout.time < WIDTH
      modifies `head, `nodes, `pool, pool`next, timeout`next
      ensures Valid() && nodes == InsertAt(old(nodes), Place(old(Entries(nodes)), timeout.time), timeout)
      ensures Entries(nodes) == Insert(old(Entries(nodes)), EntryOf(timeout))
      ensures first == (Place(old(Entries(nodes)), timeout.time) == 0) && pool == old(pool) + {timeout}
    {
      var prev, curr;
      ghost var n;
      prev, curr, n := FindPlace(timeout.time);
      InsertValue(nodes, timeout);
      LinkBetween(timeout, prev, curr, n);
      first := prev == null;
    }

    /** Links a timeout in behind those due no later; a new head sets the timer,
        by the clock reading `now`. */
    method InsertInQueue(timeout: Timeout, now: nat)
      requires Valid() && timeout !in pool && timeout.time < WIDTH && now < WIDTH
      modifies this, pool`next, timeout`next
      ensures Valid() && nodes == InsertAt(old(nodes), Place(old(View()).queue, timeout.time), timeout)
      ensures View() == Queue(old(View()), EntryOf(timeout), now) && pool == old(pool) + {timeout}
    {
      var first := LinkIn(timeout);
      if first {
        armed := SetSingle(now, Minus(timeout.time, now));
      }
    }

    /** The last timeout due earlier than `time` and the first one that is not. */
    method SkipEarlier(time: nat, ghost proc: Pid) returns (prev: Timeout?, curr: Timeout?, ghost n: nat)
      requires Valid()
      ensures n <= Stop(Entries(nodes), time, proc) && n <= |nodes| && (curr != null ==> curr.time >= time)
      ensures prev == if n == 0 then null else nodes[n - 1]
      ensures curr == if n < |nodes| then nodes[n] else null
    {
      prev, curr, n := null, head, 0;
      while curr != null && curr.time < time
        invariant n <= |nodes| && n <= Stop(Entries(nodes), time, proc)
        invariant curr == if n < |nodes| then nodes[n] else null
        invariant prev == if n == 0 then null else nodes[n - 1]
        decreases |nodes| - n
      {
        assert Entries(nodes)[n] == EntryOf(curr);
        prev, curr, n := curr, curr.next, n + 1;
      }
    }

    /** Where the search for a process's timeout at `time` stops, and its predecessor. */
    method FindEntry(time: nat, proc: Pid) returns (prev: Timeout?, curr: Timeout?, ghost n: nat)
      requires Valid()
      ensures n == Stop(Entries(nodes), time, proc) && n <= |nodes|
      ensures prev == if n == 0 then null else nodes[n - 1]
      ensures curr == if n < |nodes| then nodes[n] else null
    {
      prev, curr, n := SkipEarlier(time, proc);
      while curr != null && curr.time == time && curr.proc != proc
        invariant n <= |nodes| && n <= Stop(Entries(nodes), time, proc)
        invariant curr == if n < |nodes| then nodes[n] else null
        invariant prev == if n == 0 then null else nodes[n - 1]
        invariant curr != null ==> curr.time >= time
        decreases |nodes| - n
      {
        assert Entries(nodes)[n] == EntryOf(curr);
        StopsLater(Entries(nodes), time, proc, n);
        if n + 1 < |nodes| { NextIsLater(nodes, n); }
        prev, curr, n := curr, curr.next, n + 1;
      }
      assert n < |nodes| ==> Entries(nodes)[n] == EntryOf(curr);
      StopsHere(Entries(nodes), time, proc, n);
    }

    method Unlink(prev: Timeout?, curr: Timeout, ghost n: nat)
      requires Linked() && n < |nodes| && curr == nodes[n]
      requires prev == if n == 0 then null else nodes[n - 1]
      modifies `head, `nodes, pool`next
      ensures Linked() && nodes == DeleteAt(old(nodes), n)
    {
      if prev != null {
        prev.next := curr.next;
      }
      if curr == head {
        head := curr.next;
      }
      nodes := DeleteAt(nodes, n);
    }

    method UnlinkMatch(time: nat, proc: Pid, prev: Timeout?, curr: Timeout?, ghost n: nat)
      requires Valid() && n == Stop(Entries(nodes), time, proc)
      requires prev == if n == 0 then null else nodes[n - 1]
      requires curr == if n < |nodes| then nodes[n] else null
      modifies `head, `nodes, pool`next
      ensures Valid() && Entries(nodes) == Remove(old(Entries(nodes)), time, proc)
    {
      RemoveValue(nodes, time, proc);
      if curr != null && curr.time == time && curr.proc == proc {
        Unlink(prev, curr, n);
      }
    }

    /** Unlinks the first timeout of a process due at `time`, if there is one. The
        result is where the search stopped. */
    method RemoveFromQueue(time: nat, proc: Pid) returns (curr: Timeout?)
      requires Valid()
      modifies `head, `nodes, pool`next
      ensures Valid() && View() == old(View()).(queue := Remove(old(View()).queue, time, proc))
      ensures var n := Stop(old(View()).queue, time, proc); curr == if n < |old(nodes)| then old(nodes)[n] else null
    {
      var prev;
      ghost var n;
      prev, curr, n := FindEntry(time, proc);
      UnlinkMatch(time, proc, prev, curr, n);
    }

    method RemoveHead() returns (timeout: Timeout)
      requires Valid() && nodes != []
      modifies `head, `nodes
      ensures Valid() && timeout == old(nodes)[0] && nodes == old(nodes)[1..]
      ensures View() == Pop(old(View()))
    {
      timeout := head;
      head := head.next;
      EntriesTail(nodes);
      nodes := nodes[1..];
    }

    /** Tells whether a timeout is due at clock reading `now`, and queues it if
        not; `now'` is the reading by which the timer is set. */
    method EnableTimeout(timeout: Timeout, now: nat, now': nat) returns (ready: bool)
      requires Valid() && timeout !in pool && timeout.time < WIDTH && now' < WIDTH
      modifies this, pool`next, timeout`next
      ensures Valid() && (View(), ready) == Enable(old(View()), EntryOf(timeout), now, now')
      ensures pool == old(pool) || pool == old(pool) + {timeout}
    {
      ready := now >= timeout.time;
      if !ready {
        InsertInQueue(timeout, now');
      }
    }

    method DisableTimeout(time: nat, proc: Pid, now: nat) returns (ready: bool)
      requires Valid()
      modifies this, pool`next
      ensures Valid() && (View(), ready) == Disable(old(View()), Entry(time, proc), now) && pool == old(pool)
    {
      ready := now >= time;
      var _ := RemoveFromQueue(time, proc);
    }

    /** What a readied process does before the handler goes on. */
    method Meanwhile(acts: seq<Action>, now: nat)
      requires Valid() && Later(acts, now)
      modifies this, pool`next
      ensures Valid() && View() == ActAll(old(View()), acts, now)
      ensures fresh(pool - old(pool))
    {
      for i := 0 to |acts|
        invariant Valid() && ActAll(View(), acts[i..], now) == ActAll(old(View()), acts, now)
        invariant fresh(pool - old(pool))
      {
        assert acts[i] in acts && acts[i..][1..] == acts[i + 1..];
        MeanwhileOne(acts[i]);
      }
    }

    method MeanwhileOne(a: Action)
      requires Valid() && (a.Add? ==> a.at < a.e.time < WIDTH)
      modifies this, pool`next
      ensures Valid() && View() == Act(old(View()), a)
      ensures fresh(pool - old(pool))
    {
      match a
      case Add(e, at) =>
        var timeout := new Timeout(e.time, e.proc);
        var _ := EnableTimeout(timeout, at, at);
      case Drop(e) =>
        var _ := RemoveFromQueue(e.time, e.proc);
    }

    /** Takes the head out and readies its owner; `acts` happens meanwhile. */
    method ServeHead(now: nat, acts: seq<Action>) returns (owner: Pid)
      requires Valid() && nodes != [] && Later(acts, now)
      modifies this, pool`next
      ensures Valid() && View() == ActAll(Pop(old(View())), acts, now) && owner == old(View()).queue[0].proc
      ensures fresh(pool - old(pool))
    {
      var timeout := RemoveHead();
      owner := timeout.proc;
      Meanwhile(acts, now);
    }

    lemma HeadView()
      requires Valid()
      ensures head == null <==> View().queue == []
      ensures head != null ==> View().queue[0] == EntryOf(head)
    {
    }

    method ServeDue(now: nat, acts: seq<seq<Action>>) returns (readied: seq<Pid>)
      requires Valid() && AllLater(acts, now)
      modifies this, pool`next
      ensures Valid() && View() == Handle(old(View()), now, acts).timer
      ensures readied == Owners(Handle(old(View()), now, acts).readied)
      ensures fresh(pool - old(pool))
      ensures if head == null then View().queue == [] else View().queue != [] && View().queue[0].time == head.time > now
    {
      readied := [];
      var pending := acts;
      ghost var all := Handle(View(), now, acts);
      ghost var served: seq<Entry> := [];
      while head != null && head.time <= now
        invariant Valid() && fresh(pool - old(pool))
        invariant Continues(all, served, View(), now, pending) && readied == Owners(served)
        decreases Due(View().queue, now)
      {
        HeadView();
        ContinueStep(all, served, View(), now, pending);
        OwnersAppend(served, View().queue[0]);
        served := served + [View().queue[0]];
        var owner := ServeHead(now, First(pending));
        readied := readied + [owner];
        pending := Rest(pending);
      }
      HeadView();
    }

    /** The timeout interrupt handler. `readied` are the owners it readies, in
        order; while it readies the i-th one, `acts[i]` happens. */
    method HandleTimeoutInterrupt(now: nat, acts: seq<seq<Action>>, now': nat) returns (readied: seq<Pid>)
      requires Valid() && AllLater(acts, now) && now < WIDTH
      modifies this, pool`next
      ensures Valid() && View() == AfterInterrupt(old(View()), now, acts, now')
      ensures View().queue == Handle(old(View()).(armed := None), now, acts).timer.queue
      ensures View().queue != [] ==> now < View().queue[0].time && armed == Some(View().queue[0].time + now' - now)
      ensures readied == Owners(Handle(old(View()).(armed := None), now, acts).readied)
      ensures fresh(pool - old(pool))
    {
      armed := None;
      readied := ServeDue(now, acts);
      if head != null {
        armed := SetSingle(now', head.time - now);
      }
    }
  }

  /** The processes of a list of entries. */
  function Owners(q: seq<Entry>): (r: seq<Pid>)
    ensures |r| == |q| && forall i :: 0 <= i < |q| ==> r[i] == q[i].proc
  {
    seq(|q|, i requires 0 <= i < |q| => q[i].proc)
  }

  lemma OwnersAppend(q: seq<Entry>, e: Entry)
    ensures Owners(q + [e]) == Owners(q) + [e.proc]
  {
  }

  lemma EntriesTail(nodes: seq<Timeout>)
    requires nodes != []
    ensures Entries(nodes[1..]) == Entries(nodes)[1..]
    ensures Sorted(Entries(nodes)) && InRange(Entries(nodes)) ==> Sorted(Entries(nodes)[1..]) && InRange(Entries(nodes)[1..])
  {
  }

  lemma InsertRange(q: seq<Entry>, n: nat, e: Entry)
    requires n <= |q| && InRange(q) && e.time < WIDTH
    ensures InRange(InsertAt(q, n, e))
  {
  }

  lemma DeleteRange(q: seq<Entry>, n: nat)
    requires n < |q| && InRange(q)
    ensures InRange(DeleteAt(q, n))
  {
  }
}