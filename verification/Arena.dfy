/** The allocator of memory.c on values: blocks carved in order from one arena and
    a list of free blocks for each class of length. */
module Arena {
  import opened Types

  const NALLOC: nat := 16

  const LENGTHS: seq<nat> := [8, 12, 16, 24, 32, 40, 56, 58, 64, 70, 80, 96, 112, 128, 160, 192]

  /** A pointer is no longer than the shortest block. */
  const WORD: nat := 8

  function Len(index: nat): (len: nat)
    ensures index < NALLOC ==> WORD <= len <= 192
  {
    if index < NALLOC then LENGTHS[index] else 0
  }

  /** The lengths of the classes, in bytes. */
  lemma TheLengths()
    ensures Len(0) == 8 && Len(1) == 12 && Len(2) == 16 && Len(3) == 24 && Len(4) == 32 && Len(5) == 40
    ensures Len(6) == 56 && Len(7) == 58 && Len(8) == 64 && Len(9) == 70 && Len(10) == 80 && Len(11) == 96
    ensures Len(12) == 112 && Len(13) == 128 && Len(14) == 160 && Len(15) == 192
  {
  }

  /** `carved[b]` is the class of the b-th block carved, and `free[index]` lists
      the free blocks of a class, the next one to reuse first. */
  datatype Arena = Arena(size: nat, carved: seq<nat>, free: seq<seq<nat>>)

  /** Where the k-th block starts. */
  function Start(carved: seq<nat>, k: nat): nat
    requires k <= |carved|
    decreases k
  {
    if k == 0 then 0 else Start(carved, k - 1) + Len(carved[k - 1])
  }

  function End(carved: seq<nat>, k: nat): nat
    requires k < |carved|
  {
    Start(carved, k) + Len(carved[k])
  }

  function Tail(a: Arena): nat {
    Start(a.carved, |a.carved|)
  }

  predicate FreeOk(carved: seq<nat>, index: nat, s: seq<nat>) {
    && (forall k :: 0 <= k < |s| ==> s[k] < |carved| && carved[s[k]] == index)
    && (forall j, k :: 0 <= j < k < |s| ==> s[j] != s[k])
  }

  predicate Partitioned(a: Arena) {
    && |a.free| == NALLOC && Tail(a) <= a.size
    && (forall b :: 0 <= b < |a.carved| ==> a.carved[b] < NALLOC)
    && (forall index :: 0 <= index < NALLOC ==> FreeOk(a.carved, index, a.free[index]))
  }

  predicate Free(a: Arena, b: nat) {
    b < |a.carved| && a.carved[b] < |a.free| && b in a.free[a.carved[b]]
  }

  predicate Live(a: Arena, b: nat) {
    b < |a.carved| && !Free(a, b)
  }

  // ---------- the operations ----------

  function Initial(size: nat): (a: Arena)
    ensures Partitioned(a) && Tail(a) == 0
  {
    Arena(size, [], seq(NALLOC, _ => []))
  }

  /** allocate_mem: the first free block of the class, or else the start of the tail. */
  function Allocate(a: Arena, index: nat): (r: (Arena, Option<nat>))
    requires index < |a.free|
  {
    var s := a.free[index];
    if s != [] then (a.(free := a.free[index := s[1..]]), Some(s[0]))
    else if a.size - Tail(a) >= Len(index) then (a.(carved := a.carved + [index]), Some(|a.carved|))
    else (a, None)
  }

  function Release(a: Arena, index: nat, b: nat): Arena
    requires index < |a.free|
  {
    a.(free := a.free[index := [b] + a.free[index]])
  }

  // ---------- where blocks lie ----------

  lemma {:induction false} StartPrefix(c: seq<nat>, d: seq<nat>, k: nat)
    requires k <= |c|
    ensures Start(c + d, k) == Start(c, k)
    decreases k
  {
    if k > 0 {
      StartPrefix(c, d, k - 1);
    }
  }

  lemma {:induction false} StartsOrdered(c: seq<nat>, j: nat, k: nat)
    requires j <= k <= |c|
    ensures Start(c, j) <= Start(c, k)
    ensures j < k ==> End(c, j) <= Start(c, k)
    decreases k
  {
    if j < k {
      StartsOrdered(c, j, k - 1);
    }
  }

  /** Different blocks have different addresses. */
  lemma StartsDiffer(c: seq<nat>, j: nat, k: nat)
    requires j < k < |c| && c[j] < NALLOC
    ensures Start(c, j) + WORD <= Start(c, k)
  {
  }

  predicate Covers(c: seq<nat>, b: nat, x: nat) {
    b < |c| && Start(c, b) <= x < End(c, b)
  }

  lemma {:induction false} FindBlock(c: seq<nat>, x: nat, k: nat) returns (b: nat)
    requires k <= |c| && x < Start(c, k)
    ensures b < k && Covers(c, b, x)
    decreases k
  {
    if x < Start(c, k - 1) {
      b := FindBlock(c, x, k - 1);
    } else {
      b := k - 1;
    }
  }

  /** The blocks and the tail are disjoint and cover the arena: every byte before
      the tail is in exactly one block, and none from the tail on is. */
  lemma CoversOnce(a: Arena, x: nat)
    requires Partitioned(a) && x < a.size
    ensures (exists b :: Covers(a.carved, b, x)) <==> x < Tail(a)
    ensures forall b, b' :: Covers(a.carved, b, x) && Covers(a.carved, b', x) ==> b == b'
  {
    var c := a.carved;
    if x < Tail(a) {
      var b := FindBlock(c, x, |c|);
    }
    forall b | Covers(c, b, x) ensures x < Tail(a) {
      StartsOrdered(c, b, |c|);
    }
    forall b, b' | Covers(c, b, x) && Covers(c, b', x) ensures b == b' {
      if b < b' { StartsOrdered(c, b, b'); }
      if b' < b { StartsOrdered(c, b', b); }
    }
  }

  /** A free block is in the list of its class, once, and in no other list. */
  lemma FreeOnce(a: Arena, b: nat, index: nat, k: nat)
    requires Partitioned(a) && index < NALLOC && k < |a.free[index]| && a.free[index][k] == b
    ensures Free(a, b) && index == a.carved[b]
    ensures forall j :: 0 <= j < |a.free[index]| && a.free[index][j] == b ==> j == k
  {
  }

  // ---------- what the operations keep and undo ----------

  /** An allocation makes exactly one block live, which was not, of the class asked for. */
  lemma AllocateMakesLive(a: Arena, index: nat)
    requires Partitioned(a) && index < NALLOC
    ensures var (a', r) := Allocate(a, index);
            && Partitioned(a')
            && (r.None? ==> a' == a && a.free[index] == [] && a.size - Tail(a) < Len(index))
            && (r.Some? ==> !Live(a, r.value) && r.value < |a'.carved| && a'.carved[r.value] == index
                            && forall b: nat :: Live(a', b) <==> Live(a, b) || b == r.value)
  {
    var (a', r) := Allocate(a, index);
    assert FreeOk(a.carved, index, a.free[index]);
    StartPrefix(a.carved, [index], |a.carved|);
    assert a'.carved == a.carved || a'.carved == a.carved + [index];
    forall i | 0 <= i < NALLOC ensures FreeOk(a'.carved, i, a'.free[i]) {
      assert FreeOk(a.carved, i, a.free[i]);
    }
    if r.Some? {
      forall b: nat ensures Live(a', b) <==> Live(a, b) || b == r.value {
        if b < |a.carved| {
          assert FreeOk(a.carved, a.carved[b], a.free[a.carved[b]]);
        }
      }
    }
  }

  /** A release makes exactly the block released free. */
  lemma ReleaseMakesFree(a: Arena, index: nat, b: nat)
    requires Partitioned(a) && index < NALLOC && Live(a, b) && a.carved[b] == index
    ensures var a' := Release(a, index, b);
            Partitioned(a') && Tail(a') == Tail(a) && forall b': nat :: Live(a', b') <==> Live(a, b') && b' != b
  {
  }

  /** The block released last is the next one allocated, which restores the arena. */
  lemma AllocateUndoesRelease(a: Arena, index: nat, b: nat)
    requires Partitioned(a) && index < NALLOC
    ensures Allocate(Release(a, index, b), index) == (a, Some(b))
  {
    assert a.free[index := [b] + a.free[index]][index := a.free[index]] == a.free;
  }

  lemma ReleaseUndoesReuse(a: Arena, index: nat)
    requires Partitioned(a) && index < NALLOC && a.free[index] != []
    ensures Release(Allocate(a, index).0, index, a.free[index][0]) == a
  {
    assert [a.free[index][0]] + a.free[index][1..] == a.free[index];
    assert a.free[index := a.free[index][1..]][index := a.free[index]] == a.free;
  }

  // ---------- whole runs ----------

  /** A program's requests: a block of a class, or the return of one. */
  datatype Request = Get(index: nat) | Put(index: nat, block: nat)

  predicate Proper(a: Arena, r: Request) {
    match r
    case Get(index) => index < NALLOC
    case Put(index, b) => index < NALLOC && Live(a, b) && a.carved[b] == index
  }

  function Serve(a: Arena, r: Request): Arena
    requires |a.free| == NALLOC && Proper(a, r)
  {
    match r
    case Get(index) => Allocate(a, index).0
    case Put(index, b) => Release(a, index, b)
  }

  predicate Refused(a: Arena, r: Request)
    requires |a.free| == NALLOC && Proper(a, r)
  {
    r.Get? && Allocate(a, r.index).1 == None
  }

  ghost predicate ProperRun(a: Arena, rs: seq<Request>)
    decreases |rs|
  {
    rs != [] ==> |a.free| == NALLOC && Proper(a, rs[0]) && ProperRun(Serve(a, rs[0]), rs[1..])
  }

  /** No request of the run is refused. */
  ghost predicate Served(a: Arena, rs: seq<Request>)
    requires ProperRun(a, rs)
    decreases |rs|
  {
    rs != [] ==> !Refused(a, rs[0]) && Served(Serve(a, rs[0]), rs[1..])
  }

  ghost function After(a: Arena, rs: seq<Request>): Arena
    requires ProperRun(a, rs)
    decreases |rs|
  {
    if rs == [] then a else After(Serve(a, rs[0]), rs[1..])
  }

  lemma ServeKeepsPartition(a: Arena, r: Request)
    requires Partitioned(a) && Proper(a, r)
    ensures Partitioned(Serve(a, r))
  {
    match r
    case Get(index) => AllocateMakesLive(a, index);
    case Put(index, b) => ReleaseMakesFree(a, index, b);
  }

  /** The partition holds after any sequence of requests. */
  lemma {:induction false} RunKeepsPartition(a: Arena, rs: seq<Request>)
    requires Partitioned(a) && ProperRun(a, rs)
    ensures Partitioned(After(a, rs))
    decreases |rs|
  {
    if rs != [] {
      ServeKeepsPartition(a, rs[0]);
      RunKeepsPartition(Serve(a, rs[0]), rs[1..]);
    }
  }

  // ---------- how much memory a program needs ----------

  function Count(c: seq<nat>, index: nat): nat {
    if c == [] then 0 else Count(c[..|c| - 1], index) + (if c[|c| - 1] == index then 1 else 0)
  }

  /** The number of blocks of a class in use. */
  function InUse(a: Arena, index: nat): int
    requires index < |a.free|
  {
    Count(a.carved, index) - |a.free[index]|
  }

  function Max(x: int, y: int): int {
    if x < y then y else x
  }

  /** The most blocks of a class in use at once during a run, which `used` of them
      begin and of which there have been `peak`: a count of requests alone. */
  function Peak(rs: seq<Request>, index: nat, used: int, peak: int): int
    decreases |rs|
  {
    if rs == [] then peak
    else
      var used' := if rs[0].index != index then used else if rs[0].Get? then used + 1 else used - 1;
      Peak(rs[1..], index, used', Max(peak, used'))
  }

  /** The bytes that many blocks of the classes below `n` take. */
  function Bytes(peaks: seq<int>, n: nat): int
    requires n <= |peaks|
    decreases n
  {
    if n == 0 then 0 else Bytes(peaks, n - 1) + Len(n - 1) * peaks[n - 1]
  }

  function Counts(c: seq<nat>): (r: seq<int>)
    ensures |r| == NALLOC && forall i :: 0 <= i < NALLOC ==> r[i] == Count(c, i)
  {
    seq(NALLOC, i requires 0 <= i < NALLOC => Count(c, i))
  }

  function Peaks(a: Arena, rs: seq<Request>): (r: seq<int>)
    requires |a.free| == NALLOC
    ensures |r| == NALLOC && forall i :: 0 <= i < NALLOC ==> r[i] == Peak(rs, i, InUse(a, i), Count(a.carved, i))
  {
    seq(NALLOC, i requires 0 <= i < NALLOC => Peak(rs, i, InUse(a, i), Count(a.carved, i)))
  }

  lemma {:induction false} BytesBump(p: seq<int>, q: seq<int>, i: nat, n: nat)
    requires n <= |p| == |q| && i < |p| && q == p[i := p[i] + 1]
    ensures Bytes(q, n) == Bytes(p, n) + (if i < n then Len(i) else 0)
    decreases n
  {
    if n > 0 {
      BytesBump(p, q, i, n - 1);
      if i == n - 1 {
        OneMore(Len(n - 1), p[n - 1]);
      } else {
        assert q[n - 1] == p[n - 1];
      }
    }
  }

  lemma OneMore(k: nat, x: int)
    ensures k * (x + 1) == k * x + k
  {
  }

  lemma {:induction false} BytesGrow(p: seq<int>, q: seq<int>, n: nat)
    requires n <= |p| == |q| && forall i :: 0 <= i < n ==> p[i] <= q[i]
    ensures Bytes(p, n) <= Bytes(q, n)
    decreases n
  {
    if n > 0 {
      BytesGrow(p, q, n - 1);
      Scale(Len(n - 1), p[n - 1], q[n - 1]);
    }
  }

  lemma Scale(k: nat, x: int, y: int)
    requires x <= y
    ensures k * x <= k * y
  {
  }

  /** The tail starts after what the carved blocks of all classes take. */
  lemma {:induction false} TailIsBytes(c: seq<nat>)
    requires forall b :: 0 <= b < |c| ==> c[b] < NALLOC
    ensures Start(c, |c|) == Bytes(Counts(c), NALLOC)
  {
    if c == [] {
      NoBytes(Counts(c), NALLOC);
    } else {
      var d := c[..|c| - 1];
      TailIsBytes(d);
      assert c == d + [c[|c| - 1]];
      StartPrefix(d, [c[|c| - 1]], |d|);
      assert Counts(c) == Counts(d)[c[|c| - 1] := Counts(d)[c[|c| - 1]] + 1];
      BytesBump(Counts(d), Counts(c), c[|c| - 1], NALLOC);
    }
  }

  lemma {:induction false} NoBytes(p: seq<int>, n: nat)
    requires n <= |p| && forall i :: 0 <= i < |p| ==> p[i] == 0
    ensures Bytes(p, n) == 0
  {
    if n > 0 {
      NoBytes(p, n - 1);
    }
  }

  /** Blocks are carved only when more of their class are in use than ever before:
      what a request that is served does to the counts of a class. */
  lemma ServeCounts(a: Arena, r: Request, index: nat)
    requires Partitioned(a) && Proper(a, r) && !Refused(a, r) && index < NALLOC
    ensures var a' := Serve(a, r);
            && |a'.free| == NALLOC
            && InUse(a', index) == (if r.index != index then InUse(a, index)
                                    else if r.Get? then InUse(a, index) + 1 else InUse(a, index) - 1)
            && Count(a'.carved, index) == Max(Count(a.carved, index), InUse(a', index))
  {
  }

  lemma {:induction false} PeakGrows(rs: seq<Request>, index: nat, used: int, peak: int)
    ensures peak <= Peak(rs, index, used, peak)
    decreases |rs|
  {
    if rs != [] {
      var used' := if rs[0].index != index then used else if rs[0].Get? then used + 1 else used - 1;
      PeakGrows(rs[1..], index, used', Max(peak, used'));
    }
  }

  lemma ServeKeepsPeaks(a: Arena, rs: seq<Request>)
    requires Partitioned(a) && rs != [] && Proper(a, rs[0]) && !Refused(a, rs[0])
    ensures Peaks(Serve(a, rs[0]), rs[1..]) == Peaks(a, rs)
  {
  }

  /** A request is refused because the class's peak would grow beyond the arena. */
  lemma RefusedNeedsMore(a: Arena, rs: seq<Request>)
    requires Partitioned(a) && rs != [] && Proper(a, rs[0]) && Refused(a, rs[0])
    ensures Bytes(Peaks(a, rs), NALLOC) > a.size
  {
    var x := rs[0].index;
    var p := Counts(a.carved);
    var q := p[x := p[x] + 1];
    TailIsBytes(a.carved);
    BytesBump(p, q, x, NALLOC);
    forall i | 0 <= i < NALLOC ensures q[i] <= Peaks(a, rs)[i] {
      var used' := if rs[0].index != i then InUse(a, i) else InUse(a, i) + 1;
      PeakGrows(rs[1..], i, used', Max(Count(a.carved, i), used'));
    }
    BytesGrow(q, Peaks(a, rs), NALLOC);
  }

  /** A program's requests are all served exactly when the arena is as large as the
      peaks of its classes together, so nothing is lost to fragmentation. */
  lemma {:induction false} ServedIffPeaksFit(a: Arena, rs: seq<Request>)
    requires Partitioned(a) && ProperRun(a, rs)
    ensures Served(a, rs) <==> Bytes(Peaks(a, rs), NALLOC) <= a.size
    decreases |rs|
  {
    if rs == [] {
      TailIsBytes(a.carved);
      assert Peaks(a, rs) == Counts(a.carved);
    } else if Refused(a, rs[0]) {
      RefusedNeedsMore(a, rs);
    } else {
      ServeKeepsPartition(a, rs[0]);
      ServeKeepsPeaks(a, rs);
      ServedIffPeaksFit(Serve(a, rs[0]), rs[1..]);
    }
  }
}
