/** The allocator of memory.c on its own records: free lists linked through the
    free blocks themselves, and the tail of the arena. */
module Memory {
  import opened Types
  import opened Arena

  /** Finds the smallest class of blocks that holds `size` bytes. The table ends
      without a zero entry, so the search ends inside it only for some class. */
  method FindIndex(size: nat) returns (index: nat)
    requires size <= 192
    ensures index < NALLOC && size <= Len(index)
    ensures forall i :: 0 <= i < NALLOC && size <= Len(i) ==> Len(index) <= Len(i)
  {
    index := 0;
    while Len(index) != 0
      invariant index < NALLOC && forall i :: 0 <= i < index ==> Len(i) < size
      decreases NALLOC - index
    {
      if Len(index) >= size {
        break;
      }
      index := index + 1;
    }
    forall i | index <= i < NALLOC ensures Len(index) <= Len(i) {
      LengthsGrow(index, i);
    }
  }

  lemma LengthsGrow(i: nat, j: nat)
    requires i <= j < NALLOC
    ensures Len(i) <= Len(j)
  {
  }

  /** The search runs past the table exactly for sizes above 192. */
  lemma SearchLeavesTable(size: nat)
    ensures (forall i :: 0 <= i < NALLOC ==> Len(i) != 0 && Len(i) < size) <==> size > 192
  {
    assert Len(15) == 192;
    forall i | 0 <= i < NALLOC ensures 0 < Len(i) <= 192 {
      LengthsGrow(i, 15);
    }
  }

  class Memory {
    const lists: array<Option<nat>>
    /** The pointer stored at each address of the arena. */
    const link: array<Option<nat>>
    var tail: nat
    var taillen: nat
    ghost var arena: Arena

    ghost function Address(b: nat): nat
      requires b < |arena.carved|
      reads `arena
    {
      Start(arena.carved, b)
    }

    /** The list of a class leads through its free blocks, in order. */
    ghost predicate Linked(index: nat)
      requires Shape() && index < NALLOC
      reads `arena, lists, link
    {
      var s := arena.free[index];
      assert FreeOk(arena.carved, index, s);
      && lists[index] == (if s == [] then None else Some(Address(s[0])))
      && forall k :: 0 <= k < |s| ==> Links(s, k)
    }

    ghost predicate Links(s: seq<nat>, k: nat)
      requires k < |s|
      reads `arena, link
    {
      && s[k] < |arena.carved| && Address(s[k]) < link.Length
      && if k + 1 < |s| then s[k + 1] < |arena.carved| && link[Address(s[k])] == Some(Address(s[k + 1]))
         else link[Address(s[k])] == None
    }

    ghost predicate Shape()
      reads `arena
    {
      lists.Length == NALLOC && link.Length == arena.size && lists != link && Partitioned(arena)
    }

    ghost predicate Valid()
      reads this, lists, link
    {
      && Shape() && tail == Tail(arena) && taillen == arena.size - tail
      && forall i :: 0 <= i < NALLOC ==> Linked(i)
    }

    constructor (memlen: nat)
      ensures Valid() && arena == Initial(memlen) && fresh(lists) && fresh(link)
    {
      lists := new Option<nat>[NALLOC](_ => None);
      link := new Option<nat>[memlen](_ => None);
      tail, taillen := 0, memlen;
      arena := Initial(memlen);
    }

    lemma AddressInArena(b: nat)
      requires Partitioned(arena) && b < |arena.carved|
      ensures Address(b) + WORD <= arena.size
    {
      StartsOrdered(arena.carved, b, |arena.carved|);
    }

    /** Takes the first block of a free list. */
    method Reuse(index: nat) returns (block: nat)
      requires Valid() && index < NALLOC && arena.free[index] != []
      modifies lists, `arena
      ensures Valid()
      ensures var (a', r) := Allocate(old(arena), index);
              arena == a' && r.Some? && block == Start(old(arena).carved, r.value)
    {
      assert Linked(index) && Links(arena.free[index], 0);
      AllocateMakesLive(arena, index);
      block := lists[index].value;
      lists[index] := link[block];
      ghost var s := arena.free[index];
      arena := Allocate(arena, index).0;
      assert arena.free[index] == s[1..];
      forall i | 0 <= i < NALLOC ensures Linked(i) {
        assert old(Linked(i));
        forall k | 0 <= k < |arena.free[i]| ensures Links(arena.free[i], k) {
          assert old(Links(arena.free[i], if i == index then k + 1 else k));
        }
      }
    }

    /** Takes a block from the start of the tail, if the tail is long enough. */
    method Carve(index: nat) returns (block: Option<nat>)
      requires Valid() && index < NALLOC && arena.free[index] == []
      modifies this
      ensures Valid()
      ensures var (a', r) := Allocate(old(arena), index);
              arena == a' && block == if r == None then None else Some(Start(arena.carved, r.value))
    {
      AllocateMakesLive(arena, index);
      StartPrefix(arena.carved, [index], |arena.carved|);
      var len := Len(index);
      if taillen >= len {
        block := Some(tail);
        tail := tail + len;
        taillen := taillen - len;
        arena := Allocate(arena, index).0;
        forall i | 0 <= i < NALLOC ensures Linked(i) {
          assert old(Linked(i));
          CarvedLinked(old(arena), index, i);
          forall k | 0 <= k < |arena.free[i]| ensures Links(arena.free[i], k) {
            assert old(Links(arena.free[i], k));
          }
        }
      } else {
        block := None;
      }
    }

    /** Carving a block moves no block already carved. */
    lemma CarvedLinked(a: Arena, index: nat, i: nat)
      requires Partitioned(a) && i < NALLOC
      ensures forall k :: 0 <= k < |a.free[i]| ==>
                a.free[i][k] < |a.carved| && Start(a.carved + [index], a.free[i][k]) == Start(a.carved, a.free[i][k])
    {
      assert FreeOk(a.carved, i, a.free[i]);
      forall k | 0 <= k < |a.free[i]| ensures Start(a.carved + [index], a.free[i][k]) == Start(a.carved, a.free[i][k]) {
        StartPrefix(a.carved, [index], a.free[i][k]);
      }
    }

    /** The address of a block of a class, or None when memory is exhausted. */
    method AllocateMem(index: nat) returns (block: Option<nat>)
      requires Valid() && index < NALLOC
      modifies this, lists
      ensures Valid()
      ensures var (a', r) := Allocate(old(arena), index);
              arena == a' && match r
                             case None => block == None
                             case Some(b) => b < |arena.carved| && block == Some(Start(arena.carved, b))
    {
      assert Linked(index);
      AllocateMakesLive(arena, index);
      if lists[index] != None {
        var address := Reuse(index);
        block := Some(address);
      } else {
        block := Carve(index);
      }
    }

    /** Returns block `b`, whose address is given, to the list of its class. */
    method ReleaseMem(index: nat, address: nat, ghost b: nat)
      requires Valid() && index < NALLOC && Live(arena, b) && arena.carved[b] == index && address == Address(b)
      modifies lists, link, `arena
      ensures Valid() && arena == Release(old(arena), index, b)
    {
      ReleaseMakesFree(arena, index, b);
      AddressInArena(b);
      assert Linked(index);
      link[address] := lists[index];
      lists[index] := Some(address);
      arena := Release(arena, index, b);
      forall i | 0 <= i < NALLOC ensures Linked(i) {
        assert old(Linked(i));
        forall k | 0 <= k < |arena.free[i]| ensures Links(arena.free[i], k) {
          var k' := if i == index then k - 1 else k;
          if k' >= 0 {
            assert old(Links(arena.free[i], k'));
            OtherAddress(b, arena.free[i][k]);
          }
        }
      }
    }

    lemma OtherAddress(b: nat, b': nat)
      requires Partitioned(arena) && b < |arena.carved| && b' < |arena.carved| && b != b'
      ensures Address(b) + WORD <= Address(b') || Address(b') + WORD <= Address(b)
    {
      if b < b' { StartsDiffer(arena.carved, b, b'); } else { StartsDiffer(arena.carved, b', b); }
    }

    /** The owner of live block `b` writes a byte of it, which leaves anything at
        all in the words that hold the byte: no free list is disturbed. */
    method StoreByte(x: nat, words: seq<Option<nat>>, ghost b: nat)
      requires Valid() && Live(arena, b) && Covers(arena.carved, b, x) && |words| == WORD
      modifies link
      ensures Valid() && arena == old(arena)
      ensures forall a :: 0 <= a < link.Length && !(x - WORD < a <= x) ==> link[a] == old(link[a])
      ensures forall a :: 0 <= a < link.Length && x - WORD < a <= x ==> link[a] == words[x - a]
    {
      StartsOrdered(arena.carved, b, |arena.carved|);
      for i := 0 to WORD
        invariant forall a :: 0 <= a < link.Length && !(x - i < a <= x) ==> link[a] == old(link[a])
        invariant forall a :: 0 <= a < link.Length && x - i < a <= x ==> link[a] == words[x - a]
      {
        if i <= x {
          link[x - i] := words[i];
        }
      }
      forall i | 0 <= i < NALLOC ensures Linked(i) {
        assert old(Linked(i));
        forall k | 0 <= k < |arena.free[i]| ensures Links(arena.free[i], k) {
          assert old(Links(arena.free[i], k));
          FreeBeyond(b, x, i, k);
        }
      }
    }

    /** The link of a free block lies in none of the words that hold a byte of a live one. */
    lemma FreeBeyond(b: nat, x: nat, i: nat, k: nat)
      requires Partitioned(arena) && Live(arena, b) && Covers(arena.carved, b, x) && i < NALLOC && k < |arena.free[i]|
      ensures arena.free[i][k] < |arena.carved| && !(x - WORD < Address(arena.free[i][k]) <= x)
    {
      assert FreeOk(arena.carved, i, arena.free[i]);
      var f := arena.free[i][k];
      if f < b { StartsOrdered(arena.carved, f, b); } else { StartsOrdered(arena.carved, b, f); }
    }
  }
}
