/** The timeout queue together with the one-shot timer that serves it. */
module TimerLaws {
  import opened Types
  import opened Sequences
  import opened TimeoutList

  /** Times are 64-bit unsigned. */
  const WIDTH: nat := 0x1_0000_0000_0000_0000

  /** The difference of two times in unsigned arithmetic. */
  function Minus(a: nat, b: nat): nat
    requires a < WIDTH && b < WIDTH
  {
    if a >= b then a - b else a + WIDTH - b
  }

  /** `armed` is the instant at which the timer will interrupt. */
  datatype Timer = Timer(queue: seq<Entry>, armed: Option<nat>)

  /** Setting the one-shot timer; an interval of zero disarms it. */
  function SetSingle(now: nat, interval: nat): Option<nat> {
    if interval == 0 then None else Some(now + interval)
  }

  predicate InRange(q: seq<Entry>) {
    forall i :: 0 <= i < |q| ==> q[i].time < WIDTH
  }

  /** Queueing an entry; a new head sets the timer by clock reading `now`. */
  function Queue(t: Timer, e: Entry, now: nat): Timer
    requires e.time < WIDTH && now < WIDTH
  {
    Timer(Insert(t.queue, e), if Place(t.queue, e.time) == 0 then SetSingle(now, Minus(e.time, now)) else t.armed)
  }

  /** enable_timeout: `now` is the reading that decides, `now'` the one the timer is set by. */
  function Enable(t: Timer, e: Entry, now: nat, now': nat): (Timer, bool)
    requires e.time < WIDTH && now' < WIDTH
  {
    if now >= e.time then (t, true) else (Queue(t, e, now'), false)
  }

  /** disable_timeout does not touch the timer. */
  function Disable(t: Timer, e: Entry, now: nat): (Timer, bool) {
    (t.(queue := Remove(t.queue, e.time, e.proc)), now >= e.time)
  }

  /** A nonempty queue has the timer armed for no later than its first deadline. */
  predicate SafetyNet(t: Timer) {
    t.queue != [] ==> t.armed.Some? && t.armed.value <= t.queue[0].time
  }

  /** A timeout still ahead of the first clock reading is queued, behind position `n`
      where those due later begin; one that is due leaves everything as it was. */
  lemma EnableQueues(t: Timer, e: Entry, now: nat, now': nat) returns (n: nat)
    requires Sorted(t.queue) && e.time < WIDTH && now' < WIDTH
    ensures n <= |t.queue| && forall i :: 0 <= i < |t.queue| ==> (i < n <==> t.queue[i].time <= e.time)
    ensures Enable(t, e, now, now').1 <==> e.time <= now
    ensures e.time <= now ==> Enable(t, e, now, now').0 == t
    ensures now < e.time ==> Enable(t, e, now, now').0.queue == t.queue[..n] + [e] + t.queue[n..]
  {
    n := Place(t.queue, e.time);
    InsertIsStable(t.queue, e);
  }

  /** A new first deadline sets the timer to it exactly while it is ahead of the
      second clock reading; one reached by then turns the timer off, and one passed
      sets it a whole clock period late. Any other deadline leaves the timer alone. */
  lemma EnableArms(t: Timer, e: Entry, now: nat, now': nat)
    requires Sorted(t.queue) && e.time < WIDTH && now' < WIDTH && now < e.time
    ensures var t' := Enable(t, e, now, now').0;
            t'.armed == if t.queue != [] && t.queue[0].time <= e.time then t.armed
                        else if now' < e.time then Some(e.time)
                        else if now' == e.time then None
                        else Some(e.time + WIDTH)
  {
  }

  /** Disabling takes out the first copy of the timeout, at position `n`, if there is
      one, and changes nothing else. */
  lemma DisableDequeues(t: Timer, e: Entry, now: nat) returns (n: nat)
    requires Sorted(t.queue)
    ensures n <= |t.queue| && e !in t.queue[..n] && (n < |t.queue| ==> t.queue[n] == e)
    ensures Disable(t, e, now).1 <==> e.time <= now
    ensures Disable(t, e, now).0 == if n == |t.queue| then t else t.(queue := t.queue[..n] + t.queue[n + 1..])
  {
    StopFindsFirst(t.queue, e.time, e.proc);
    n := Stop(t.queue, e.time, e.proc);
    if e !in t.queue { n := |t.queue|; }
  }

  /** Enabling keeps the safety net exactly when the deadline is still ahead at the
      second clock reading, or the timer need not be set at all. */
  lemma EnableKeepsNet(t: Timer, e: Entry, now: nat, now': nat)
    requires SafetyNet(t) && e.time < WIDTH && now <= now' < WIDTH
    ensures SafetyNet(Enable(t, e, now, now').0) <==>
            now >= e.time || Place(t.queue, e.time) != 0 || now' < e.time
  {
  }

  /** A deadline reached between the two readings is queued with no interrupt to come. */
  lemma EnableMissesDeadline()
    ensures var t := Enable(Timer([], None), Entry(5, 0), 4, 5).0;
            t == Timer([Entry(5, 0)], None) && !SafetyNet(t)
  {
    EnableKeepsNet(Timer([], None), Entry(5, 0), 4, 5);
  }

  /** Removing an entry leaves the timer as it was; the first deadline only moves back. */
  lemma DisableKeepsNet(t: Timer, e: Entry, now: nat)
    requires SafetyNet(t) && Sorted(t.queue)
    ensures SafetyNet(Disable(t, e, now).0) && Sorted(Disable(t, e, now).0.queue)
  {
  }

  // ---------- the timeout interrupt ----------

  /** What the processes readied by the handler may do to the queue meanwhile:
      enable a timeout at clock reading `at`, or disable one. */
  datatype Action = Add(e: Entry, at: nat) | Drop(e: Entry)

  /** A process queues a timeout only while its deadline is ahead of the clock. */
  predicate Later(acts: seq<Action>, now: nat) {
    forall a :: a in acts && a.Add? ==> now <= a.at < a.e.time < WIDTH
  }

  function Act(t: Timer, a: Action): Timer
    requires a.Add? ==> a.at < a.e.time < WIDTH
  {
    match a
    case Add(e, at) => Enable(t, e, at, at).0
    case Drop(e) => t.(queue := Remove(t.queue, e.time, e.proc))
  }

  function ActAll(t: Timer, acts: seq<Action>, now: nat): Timer
    requires Later(acts, now)
    decreases |acts|
  {
    if acts == [] then t else ActAll(Act(t, acts[0]), acts[1..], now)
  }

  /** The number of entries due at `now` in a sorted list. */
  function Due(q: seq<Entry>, now: nat): (n: nat)
    ensures n <= |q| && (forall i :: 0 <= i < n ==> q[i].time <= now) && (n < |q| ==> now < q[n].time)
  {
    if q == [] || q[0].time > now then 0 else 1 + Due(q[1..], now)
  }

  lemma DueIs(q: seq<Entry>, now: nat, n: nat)
    requires Sorted(q) && n <= |q| && (forall i :: 0 <= i < n ==> q[i].time <= now) && (n < |q| ==> now < q[n].time)
    ensures Due(q, now) == n
  {
  }

  lemma AddDue(q: seq<Entry>, e: Entry, now: nat)
    requires Sorted(q) && now < e.time
    ensures Sorted(Insert(q, e)) && Due(Insert(q, e), now) == Due(q, now)
  {
    InsertIsStable(q, e);
    assert Due(q, now) <= Place(q, e.time);
    DueIs(Insert(q, e), now, Due(q, now));
  }

  lemma DropDue(q: seq<Entry>, e: Entry, now: nat)
    requires Sorted(q)
    ensures Sorted(Remove(q, e.time, e.proc)) && Due(Remove(q, e.time, e.proc), now) <= Due(q, now)
  {
    RemoveFirstMatch(q, e.time, e.proc);
    var n, d := Stop(q, e.time, e.proc), Due(q, now);
    if e in q {
      DueIs(Remove(q, e.time, e.proc), now, if n < d then d - 1 else d);
    }
  }

  lemma {:induction false} ActAllDue(t: Timer, acts: seq<Action>, now: nat)
    requires Sorted(t.queue) && Later(acts, now)
    ensures var q := ActAll(t, acts, now).queue; Sorted(q) && Due(q, now) <= Due(t.queue, now)
    decreases |acts|
  {
    if acts != [] {
      match acts[0] {
        case Add(e, _) => AddDue(t.queue, e, now);
        case Drop(e) => DropDue(t.queue, e, now);
      }
      ActAllDue(Act(t, acts[0]), acts[1..], now);
    }
  }

  /** What the handler's loop leaves: the timer, and the entries whose owners it readied, in order. */
  datatype Handled = Handled(timer: Timer, readied: seq<Entry>)

  predicate AllLater(acts: seq<seq<Action>>, now: nat) {
    forall i :: 0 <= i < |acts| ==> Later(acts[i], now)
  }

  function First(acts: seq<seq<Action>>): seq<Action> {
    if acts == [] then [] else acts[0]
  }

  function Rest(acts: seq<seq<Action>>): seq<seq<Action>> {
    if acts == [] then [] else acts[1..]
  }

  function Pop(t: Timer): Timer
    requires t.queue != []
  {
    t.(queue := t.queue[1..])
  }

  lemma PopDue(t: Timer, now: nat)
    requires Sorted(t.queue) && t.queue != [] && t.queue[0].time <= now
    ensures Sorted(Pop(t).queue) && Due(t.queue, now) == 1 + Due(Pop(t).queue, now)
  {
  }

  /** The handler's loop; `acts[i]` is what happens while it readies its i-th owner. */
  function Handle(t: Timer, now: nat, acts: seq<seq<Action>>): Handled
    requires Sorted(t.queue) && AllLater(acts, now)
    decreases Due(t.queue, now)
  {
    if t.queue == [] || t.queue[0].time > now then Handled(t, [])
    else
      PopDue(t, now);
      ActAllDue(Pop(t), First(acts), now);
      var h := Handle(ActAll(Pop(t), First(acts), now), now, Rest(acts));
      Handled(h.timer, [t.queue[0]] + h.readied)
  }

  /** The handler leaves nothing that is due, whatever readied processes do. */
  lemma {:induction false} HandleLeavesLater(t: Timer, now: nat, acts: seq<seq<Action>>)
    requires Sorted(t.queue) && AllLater(acts, now)
    ensures var h := Handle(t, now, acts);
            && Sorted(h.timer.queue) && Due(h.timer.queue, now) == 0
            && (forall i :: 0 <= i < |h.readied| ==> h.readied[i].time <= now) && |h.readied| <= Due(t.queue, now)
    decreases Due(t.queue, now)
  {
    if t.queue == [] || t.queue[0].time > now {
    } else {
      PopDue(t, now);
      ActAllDue(Pop(t), First(acts), now);
      HandleLeavesLater(ActAll(Pop(t), First(acts), now), now, Rest(acts));
    }
  }

  /** One round of the handler's loop. */
  lemma HandleStep(t: Timer, now: nat, acts: seq<seq<Action>>)
    requires Sorted(t.queue) && AllLater(acts, now) && t.queue != [] && t.queue[0].time <= now
    ensures Later(First(acts), now) && AllLater(Rest(acts), now)
    ensures var t' := ActAll(Pop(t), First(acts), now);
            && Sorted(t'.queue) && Due(t'.queue, now) < Due(t.queue, now)
            && var h := Handle(t', now, Rest(acts)); Handle(t, now, acts) == Handled(h.timer, [t.queue[0]] + h.readied)
  {
    PopDue(t, now);
    ActAllDue(Pop(t), First(acts), now);
  }

  // ---------- what the handler serves and keeps ----------

  /** How often `acts` queue entry `x`. */
  function Adds(acts: seq<Action>, x: Entry): nat {
    if acts == [] then 0 else (if acts[0].Add? && acts[0].e == x then 1 else 0) + Adds(acts[1..], x)
  }

  /** How often `acts` ask for the removal of entry `x`. */
  function Drops(acts: seq<Action>, x: Entry): nat {
    if acts == [] then 0 else (if acts[0] == Drop(x) then 1 else 0) + Drops(acts[1..], x)
  }

  function AddsIn(acts: seq<seq<Action>>, n: nat, x: Entry): nat {
    if n == 0 then 0 else Adds(First(acts), x) + AddsIn(Rest(acts), n - 1, x)
  }

  function DropsIn(acts: seq<seq<Action>>, n: nat, x: Entry): nat {
    if n == 0 then 0 else Drops(First(acts), x) + DropsIn(Rest(acts), n - 1, x)
  }

  lemma ActCopies(t: Timer, a: Action, x: Entry)
    requires Sorted(t.queue) && (a.Add? ==> a.at < a.e.time < WIDTH)
    ensures Sorted(Act(t, a).queue)
    ensures var c, c' := Copies(t.queue, x), Copies(Act(t, a).queue, x);
            if a.Add? && a.e == x then c' == c + 1
            else if a == Drop(x) then c' == Max(c - 1, 0)
            else c' == c
  {
    match a
    case Add(e, _) => InsertIsStable(t.queue, e); InsertCopies(t.queue, e, x);
    case Drop(e) => RemoveFirstMatch(t.queue, e.time, e.proc); RemoveCopies(t.queue, e, x);
  }

  function Max(a: int, b: int): int {
    if a < b then b else a
  }

  lemma {:induction false} ActAllCopies(t: Timer, acts: seq<Action>, now: nat, x: Entry)
    requires Sorted(t.queue) && Later(acts, now)
    ensures var c, c' := Copies(t.queue, x), Copies(ActAll(t, acts, now).queue, x);
            c + Adds(acts, x) - Drops(acts, x) <= c' <= c + Adds(acts, x)
    ensures x.time <= now ==> Adds(acts, x) == 0
    decreases |acts|
  {
    if acts != [] {
      ActCopies(t, acts[0], x);
      ActAllCopies(Act(t, acts[0]), acts[1..], now, x);
    }
  }

  lemma HeadCopies(e: Entry, q: seq<Entry>, x: Entry)
    ensures Copies([e] + q, x) == Copies(q, x) + if x == e then 1 else 0
  {
  }

  /** A round takes one copy of the head out, and the readied process does the rest. */
  lemma RoundCopies(t: Timer, now: nat, acts: seq<Action>, x: Entry)
    requires Sorted(t.queue) && Later(acts, now) && t.queue != [] && t.queue[0].time <= now
    ensures var c := Copies(t.queue, x) - (if x == t.queue[0] then 1 else 0);
            c + Adds(acts, x) - Drops(acts, x) <= Copies(ActAll(Pop(t), acts, now).queue, x) <= c + Adds(acts, x)
    ensures x.time <= now ==> Adds(acts, x) == 0
  {
    ActAllCopies(Pop(t), acts, now, x);
    assert t.queue == [t.queue[0]] + Pop(t).queue;
    HeadCopies(t.queue[0], Pop(t).queue, x);
  }

  lemma NothingDue(q: seq<Entry>, now: nat, x: Entry)
    requires Sorted(q) && (q == [] || now < q[0].time) && x.time <= now
    ensures Copies(q, x) == 0
  {
    assert x !in q;
  }

  lemma OneRound(acts: seq<seq<Action>>, n: nat, x: Entry)
    ensures AddsIn(acts, n + 1, x) == Adds(First(acts), x) + AddsIn(Rest(acts), n, x)
    ensures DropsIn(acts, n + 1, x) == Drops(First(acts), x) + DropsIn(Rest(acts), n, x)
  {
  }

  /** Of `c` copies of an entry, those served and left when `adds` have been queued
      and the removal of `drops` asked for meanwhile. */
  predicate Balance(due: bool, c: nat, adds: nat, drops: nat, served: nat, left: nat) {
    if due then c - drops <= served <= c && left == 0
    else c + adds - drops <= left <= c + adds && served == 0
  }

  /** The copies of `x` balance when the handler turns `t` into `h`. */
  predicate Conserves(t: Timer, now: nat, acts: seq<seq<Action>>, h: Handled, x: Entry) {
    Balance(x.time <= now, Copies(t.queue, x), AddsIn(acts, |h.readied|, x), DropsIn(acts, |h.readied|, x),
            Copies(h.readied, x), Copies(h.timer.queue, x))
  }

  lemma ConservesRound(t: Timer, now: nat, acts: seq<seq<Action>>, h: Handled, x: Entry)
    requires Sorted(t.queue) && t.queue != [] && t.queue[0].time <= now && Later(First(acts), now)
    requires Conserves(ActAll(Pop(t), First(acts), now), now, Rest(acts), h, x)
    ensures Conserves(t, now, acts, Handled(h.timer, [t.queue[0]] + h.readied), x)
  {
    RoundCopies(t, now, First(acts), x);
    HeadCopies(t.queue[0], h.readied, x);
    OneRound(acts, |h.readied|, x);
  }

  /** No timeout is lost and none is invented, whatever the readied processes do:
      a timeout due is served as often as it is queued, less at most the removals
      asked for, and one not due is still queued with those added meanwhile. */
  lemma {:induction false} HandleConserves(t: Timer, now: nat, acts: seq<seq<Action>>, x: Entry)
    requires Sorted(t.queue) && AllLater(acts, now)
    ensures Conserves(t, now, acts, Handle(t, now, acts), x)
    decreases Due(t.queue, now)
  {
    if t.queue == [] || t.queue[0].time > now {
      if x.time <= now { NothingDue(t.queue, now, x); }
    } else {
      HandleStep(t, now, acts);
      var t' := ActAll(Pop(t), First(acts), now);
      HandleConserves(t', now, Rest(acts), x);
      ConservesRound(t, now, acts, Handle(t', now, Rest(acts)), x);
    }
  }

  /** A timeout whose removal nobody asks for is served if it is due, and kept if it is not. */
  lemma NoTimeoutLost(t: Timer, now: nat, acts: seq<seq<Action>>, x: Entry)
    requires Sorted(t.queue) && AllLater(acts, now) && forall i :: 0 <= i < |acts| ==> Drop(x) !in acts[i]
    ensures var h := Handle(t, now, acts);
            && (x.time <= now ==> Copies(h.readied, x) == Copies(t.queue, x) && x !in h.timer.queue)
            && (x.time > now ==> Copies(h.timer.queue, x) == Copies(t.queue, x) + AddsIn(acts, |h.readied|, x) && x !in h.readied)
  {
    HandleConserves(t, now, acts, x);
    NoDropsIn(acts, |Handle(t, now, acts).readied|, x);
  }

  lemma {:induction false} NoDrops(acts: seq<Action>, x: Entry)
    requires Drop(x) !in acts
    ensures Drops(acts, x) == 0
  {
    if acts != [] {
      NoDrops(acts[1..], x);
    }
  }

  lemma {:induction false} NoDropsIn(acts: seq<seq<Action>>, n: nat, x: Entry)
    requires forall i :: 0 <= i < |acts| ==> Drop(x) !in acts[i]
    ensures DropsIn(acts, n, x) == 0
  {
    if n > 0 {
      NoDrops(First(acts), x);
      NoDropsIn(Rest(acts), n - 1, x);
    }
  }

  /** Owners are readied in the order of their deadlines. */
  lemma {:induction false} HandleInOrder(t: Timer, now: nat, acts: seq<seq<Action>>)
    requires Sorted(t.queue) && AllLater(acts, now)
    ensures Sorted(Handle(t, now, acts).readied)
    decreases Due(t.queue, now)
  {
    if t.queue != [] && t.queue[0].time <= now {
      HandleStep(t, now, acts);
      PopDue(t, now);
      var t' := ActAll(Pop(t), First(acts), now);
      HandleInOrder(t', now, Rest(acts));
      HandleLeavesLater(t', now, Rest(acts));
      var r := Handle(t', now, Rest(acts)).readied;
      forall i | 0 <= i < |r| ensures t.queue[0].time <= r[i].time {
        ServedWasQueued(t, now, acts, r[i]);
      }
      SortedPrepend(t.queue[0], r);
    }
  }

  lemma SortedPrepend(e: Entry, q: seq<Entry>)
    requires Sorted(q) && forall i :: 0 <= i < |q| ==> e.time <= q[i].time
    ensures Sorted([e] + q)
  {
  }

  /** What later rounds serve was in the queue behind the head. */
  lemma ServedWasQueued(t: Timer, now: nat, acts: seq<seq<Action>>, x: Entry)
    requires Sorted(t.queue) && AllLater(acts, now) && t.queue != [] && t.queue[0].time <= now
    requires Later(First(acts), now) && AllLater(Rest(acts), now) && x.time <= now
    requires var t' := ActAll(Pop(t), First(acts), now); Sorted(t'.queue) && x in Handle(t', now, Rest(acts)).readied
    ensures t.queue[0].time <= x.time
  {
    HandleConserves(ActAll(Pop(t), First(acts), now), now, Rest(acts), x);
    RoundCopies(t, now, First(acts), x);
    assert x in t.queue;
  }

  /** Readied processes remove no timeout that is due. */
  predicate SparesDue(acts: seq<seq<Action>>, now: nat) {
    forall i :: 0 <= i < |acts| ==> Spares(acts[i], now)
  }

  predicate Spares(acts: seq<Action>, now: nat) {
    forall a :: a in acts && a.Drop? ==> now < a.e.time
  }

  lemma AddSparesDue(q: seq<Entry>, e: Entry, now: nat)
    requires Sorted(q) && now < e.time
    ensures Sorted(Insert(q, e)) && Due(Insert(q, e), now) == Due(q, now) && Insert(q, e)[..Due(q, now)] == q[..Due(q, now)]
  {
    AddDue(q, e, now);
    assert Due(q, now) <= Place(q, e.time);
  }

  lemma DropSparesDue(q: seq<Entry>, e: Entry, now: nat)
    requires Sorted(q) && now < e.time
    ensures var q' := Remove(q, e.time, e.proc);
            Sorted(q') && Due(q', now) == Due(q, now) && q'[..Due(q, now)] == q[..Due(q, now)]
  {
    RemoveFirstMatch(q, e.time, e.proc);
    if e in q {
      DeleteBehind(q, Stop(q, e.time, e.proc), now);
    }
  }

  lemma DeleteBehind(q: seq<Entry>, n: nat, now: nat)
    requires Sorted(q) && n < |q| && now < q[n].time && Sorted(DeleteAt(q, n))
    ensures Due(DeleteAt(q, n), now) == Due(q, now) <= n && DeleteAt(q, n)[..Due(q, now)] == q[..Due(q, now)]
  {
    DueIs(DeleteAt(q, n), now, Due(q, now));
  }

  lemma ActSparesDue(t: Timer, a: Action, now: nat)
    requires Sorted(t.queue) && now < a.e.time && (a.Add? ==> a.at < a.e.time < WIDTH)
    ensures var d, q := Due(t.queue, now), Act(t, a).queue; Sorted(q) && Due(q, now) == d && q[..d] == t.queue[..d]
  {
    match a
    case Add(e, _) => AddSparesDue(t.queue, e, now);
    case Drop(e) => DropSparesDue(t.queue, e, now);
  }

  lemma {:induction false} ActAllSparesDue(t: Timer, acts: seq<Action>, now: nat)
    requires Sorted(t.queue) && Later(acts, now) && Spares(acts, now)
    ensures var d, q := Due(t.queue, now), ActAll(t, acts, now).queue; Sorted(q) && Due(q, now) == d && q[..d] == t.queue[..d]
    decreases |acts|
  {
    if acts != [] {
      ActSparesDue(t, acts[0], now);
      ActAllSparesDue(Act(t, acts[0]), acts[1..], now);
    }
  }

  /** Unless a timeout that is due is removed meanwhile, the handler readies the
      owners of exactly the timeouts due, in order. */
  lemma {:induction false} HandleIsExact(t: Timer, now: nat, acts: seq<seq<Action>>)
    requires Sorted(t.queue) && AllLater(acts, now) && SparesDue(acts, now)
    ensures Handle(t, now, acts).readied == t.queue[..Due(t.queue, now)]
    decreases Due(t.queue, now)
  {
    if t.queue != [] && t.queue[0].time <= now {
      HandleStep(t, now, acts);
      PopDue(t, now);
      ActAllSparesDue(Pop(t), First(acts), now);
      HandleIsExact(ActAll(Pop(t), First(acts), now), now, Rest(acts));
      SplitHead(t.queue, Due(t.queue, now));
    }
  }

  predicate Quiet(acts: seq<seq<Action>>) {
    forall i :: 0 <= i < |acts| ==> acts[i] == []
  }

  lemma SplitHead(q: seq<Entry>, d: nat)
    requires 1 <= d <= |q|
    ensures [q[0]] + q[1..][..d - 1] == q[..d] && q[1..][d - 1..] == q[d..]
  {
  }

  lemma QuietStep(t: Timer, now: nat, acts: seq<seq<Action>>)
    requires Sorted(t.queue) && Quiet(acts) && t.queue != [] && t.queue[0].time <= now
    ensures Sorted(Pop(t).queue) && Quiet(Rest(acts))
    ensures Handle(t, now, acts) ==
            var h := Handle(Pop(t), now, Rest(acts)); Handled(h.timer, [t.queue[0]] + h.readied)
  {
  }

  /** Undisturbed, the handler does no more than that. */
  lemma {:induction false} HandleUndisturbed(t: Timer, now: nat, acts: seq<seq<Action>>)
    requires Sorted(t.queue) && Quiet(acts)
    ensures var d := Due(t.queue, now); Handle(t, now, acts) == Handled(t.(queue := t.queue[d..]), t.queue[..d])
    decreases Due(t.queue, now)
  {
    if t.queue == [] || t.queue[0].time > now {
    } else {
      PopDue(t, now);
      QuietStep(t, now, acts);
      HandleUndisturbed(Pop(t), now, Rest(acts));
      SplitHead(t.queue, Due(t.queue, now));
    }
  }

  /** The handler's result `all` is what it has served followed by what it makes of `t`. */
  ghost predicate Continues(all: Handled, served: seq<Entry>, t: Timer, now: nat, acts: seq<seq<Action>>) {
    && Sorted(t.queue) && AllLater(acts, now)
    && all.timer == Handle(t, now, acts).timer && all.readied == served + Handle(t, now, acts).readied
  }

  lemma ContinueStep(all: Handled, served: seq<Entry>, t: Timer, now: nat, acts: seq<seq<Action>>)
    requires Continues(all, served, t, now, acts) && t.queue != [] && t.queue[0].time <= now
    ensures Later(First(acts), now) && AllLater(Rest(acts), now)
    ensures Continues(all, served + [t.queue[0]], ActAll(Pop(t), First(acts), now), now, Rest(acts))
    ensures Due(ActAll(Pop(t), First(acts), now).queue, now) < Due(t.queue, now)
  {
    HandleStep(t, now, acts);
    var h := Handle(ActAll(Pop(t), First(acts), now), now, Rest(acts));
    assert served + ([t.queue[0]] + h.readied) == served + [t.queue[0]] + h.readied;
  }

  /** The interrupt: the timer has gone off; `now` is the handler's clock reading
      and `now'` the instant at which it sets the timer again. */
  function AfterInterrupt(t: Timer, now: nat, acts: seq<seq<Action>>, now': nat): (t': Timer)
    requires Sorted(t.queue) && AllLater(acts, now) && now < WIDTH
  {
    var h := Handle(t.(armed := None), now, acts).timer;
    HandleLeavesLater(t.(armed := None), now, acts);
    if h.queue != [] then h.(armed := SetSingle(now', h.queue[0].time - now)) else h
  }

  /** The interrupt leaves in the queue exactly what the handler's loop leaves there,
      and touches the timer only if something is left. */
  lemma InterruptKeepsQueue(t: Timer, now: nat, acts: seq<seq<Action>>, now': nat)
    requires Sorted(t.queue) && AllLater(acts, now) && now < WIDTH
    ensures var h, t' := Handle(t.(armed := None), now, acts).timer, AfterInterrupt(t, now, acts, now');
            t'.queue == h.queue && (t'.queue == [] ==> t'.armed == h.armed)
  {
  }

  /** No timeout is lost by the interrupt and none invented, for every timeout `x`
      and whatever readied processes do: one that is due has its owner readied as
      often as it is queued, less at most the removals asked for; one that is not is
      still queued afterwards, with those added meanwhile. */
  lemma InterruptConserves(t: Timer, now: nat, acts: seq<seq<Action>>, now': nat, x: Entry)
    requires Sorted(t.queue) && AllLater(acts, now) && now < WIDTH
    ensures var readied, t' := Handle(t.(armed := None), now, acts).readied, AfterInterrupt(t, now, acts, now');
            var n, c := |readied|, Copies(t.queue, x);
            if x.time <= now then
              c - DropsIn(acts, n, x) <= Copies(readied, x) <= c && Copies(t'.queue, x) == 0
            else
              && c + AddsIn(acts, n, x) - DropsIn(acts, n, x) <= Copies(t'.queue, x) <= c + AddsIn(acts, n, x)
              && Copies(readied, x) == 0
  {
    InterruptKeepsQueue(t, now, acts, now');
    HandleConserves(t.(armed := None), now, acts, x);
  }

  /** So a timeout whose removal nobody asks for has its owner readied, or is still queued, after the interrupt. */
  lemma InterruptLosesNothing(t: Timer, now: nat, acts: seq<seq<Action>>, now': nat, x: Entry)
    requires Sorted(t.queue) && AllLater(acts, now) && now < WIDTH && forall i :: 0 <= i < |acts| ==> Drop(x) !in acts[i]
    ensures var readied, t' := Handle(t.(armed := None), now, acts).readied, AfterInterrupt(t, now, acts, now');
            && (x.time <= now ==> Copies(readied, x) == Copies(t.queue, x))
            && (x.time > now ==> Copies(t'.queue, x) == Copies(t.queue, x) + AddsIn(acts, |readied|, x))
  {
    InterruptKeepsQueue(t, now, acts, now');
    NoTimeoutLost(t.(armed := None), now, acts, x);
  }

  /** When readied processes touch no timeouts, the queue after the interrupt is
      exactly the timeouts not yet due, and an empty queue leaves the timer off. */
  lemma InterruptIsExact(t: Timer, now: nat, acts: seq<seq<Action>>, now': nat)
    requires Sorted(t.queue) && Quiet(acts) && AllLater(acts, now) && now < WIDTH
    ensures var d, t' := Due(t.queue, now), AfterInterrupt(t, now, acts, now');
            && t'.queue == t.queue[d..]
            && t'.armed == if d == |t.queue| then None else Some(t.queue[d].time + (now' - now))
  {
    HandleUndisturbed(t.(armed := None), now, acts);
    InterruptKeepsQueue(t, now, acts, now');
    if Due(t.queue, now) < |t.queue| {
      assert t.queue[Due(t.queue, now)..][0] == t.queue[Due(t.queue, now)];
    }
  }

  /** The timer is late by exactly the time between the clock reading and its setting. */
  lemma InterruptKeepsNet(t: Timer, now: nat, acts: seq<seq<Action>>, now': nat)
    requires Sorted(t.queue) && AllLater(acts, now) && now < WIDTH && now <= now'
    ensures var t' := AfterInterrupt(t, now, acts, now');
            && (t'.queue != [] ==> now < t'.queue[0].time && t'.armed == Some(t'.queue[0].time + (now' - now)))
            && (SafetyNet(t') <==> t'.queue == [] || now' == now)
  {
    HandleLeavesLater(t.(armed := None), now, acts);
  }

  /** Setting the timer one unit after the handler's reading makes it one unit late. */
  lemma InterruptSetsLate()
    ensures var t := Timer([Entry(5, 0), Entry(9, 1)], Some(5));
            var t' := AfterInterrupt(t, 5, [], 6);
            t' == Timer([Entry(9, 1)], Some(10)) && !SafetyNet(t')
  {
    var t := Timer([Entry(5, 0), Entry(9, 1)], Some(5));
    DueIs(t.queue, 5, 1);
    HandleUndisturbed(t.(armed := None), 5, []);
    InterruptKeepsNet(t, 5, [], 6);
  }

  // ---------- every sequence of steps ----------

  datatype Step =
    | DoEnable(e: Entry, now: nat)
    | DoDisable(e: Entry, now: nat)
    | DoInterrupt(now: nat, acts: seq<seq<Action>>)

  predicate Legal(s: Step) {
    match s
    case DoEnable(e, now) => e.time < WIDTH && now < WIDTH
    case DoDisable(_, _) => true
    case DoInterrupt(now, acts) => AllLater(acts, now) && now < WIDTH
  }

  /** One step, with one clock reading for each critical section. */
  function Do(t: Timer, s: Step): Timer
    requires Sorted(t.queue) && Legal(s)
  {
    match s
    case DoEnable(e, now) => Enable(t, e, now, now).0
    case DoDisable(e, now) => Disable(t, e, now).0
    case DoInterrupt(now, acts) => AfterInterrupt(t, now, acts, now)
  }

  ghost predicate IsRun(t: Timer, steps: seq<Step>)
    decreases |steps|
  {
    steps == [] || (Sorted(t.queue) && Legal(steps[0]) && IsRun(Do(t, steps[0]), steps[1..]))
  }

  ghost function After(t: Timer, steps: seq<Step>): Timer
    requires IsRun(t, steps)
    decreases |steps|
  {
    if steps == [] then t else After(Do(t, steps[0]), steps[1..])
  }

  lemma DoKeepsNet(t: Timer, s: Step)
    requires Sorted(t.queue) && SafetyNet(t) && Legal(s)
    ensures Sorted(Do(t, s).queue) && SafetyNet(Do(t, s))
  {
    match s
    case DoEnable(e, now) =>
      EnableKeepsNet(t, e, now, now);
      InsertIsStable(t.queue, e);
    case DoDisable(e, now) => DisableKeepsNet(t, e, now);
    case DoInterrupt(now, acts) =>
      InterruptKeepsNet(t, now, acts, now);
      HandleLeavesLater(t.(armed := None), now, acts);
  }

  /** Under every sequence of enables, disables and timeout interrupts the queue
      stays sorted and no deadline is left without the timer armed for it. */
  lemma {:induction false} NetAlwaysHolds(t: Timer, steps: seq<Step>)
    requires Sorted(t.queue) && SafetyNet(t) && IsRun(t, steps)
    ensures Sorted(After(t, steps).queue) && SafetyNet(After(t, steps))
    decreases |steps|
  {
    if steps != [] {
      DoKeepsNet(t, steps[0]);
      NetAlwaysHolds(Do(t, steps[0]), steps[1..]);
    }
  }
}
