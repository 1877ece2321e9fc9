// The global allocator and its tally, one call at a time (src/base/allocator_impl.cpp:276-326). Protocol.dfy has the
// same calls under any interleaving.
module GlobalAllocator {
  import opened Basics
  import opened Sums
  import opened Protocol
  import opened ProtocolAccounts

  function Header(size: nat): nat { size }

  class TallyCell {
    var value: Tally
    constructor (y: Tally)
      ensures value == y
    { value := y; }
  }

  class GlobalAllocator {
    var blocks: map<Ptr, nat> // the size header of each live block
    var tally: Tally          // s_allocateStats

    /** The tally's differences are the number of live blocks and the sum of their headers, modulo 2^64. */
    ghost predicate Valid()
      reads this
    {
      NULL !in blocks && Balanced(tally, |blocks|, SumOver(blocks, Header))
    }

    constructor ()
      ensures Valid() && blocks == map[] && tally == Tally(0, 0, 0, 0)
    {
      blocks := map[];
      tally := Tally(0, 0, 0, 0);
      CongruentByMultiple(0, 0, 0);
    }

    /** `p` is malloc's result. */
    method Allocate(size: nat, p: Ptr) returns (r: Ptr)
      requires Valid() && size + 8 < WORD && p !in blocks
      modifies this
      ensures Valid() && r == p
      ensures blocks == if p == NULL then old(blocks) else old(blocks)[p := size]
      ensures tally == if p == NULL then old(tally) else TallyIn(old(tally), size)
      ensures p != NULL ==>
        && tally.allocatedSize == Wrap(old(tally.allocatedSize) + size) && tally.allocatedCount == Wrap(old(tally.allocatedCount) + 1)
        && tally.freedSize == old(tally.freedSize) && tally.freedCount == old(tally.freedCount)
    {
      if p == NULL {
        return NULL;
      }
      SumPut(blocks, p, size, Header);
      BalancedIn(tally, |blocks|, SumOver(blocks, Header), size,
        TallyIn(tally, size), |blocks[p := size]|, SumOver(blocks[p := size], Header));
      blocks := blocks[p := size];
      tally := TallyIn(tally, size);
      return p;
    }

    method Free(p: Ptr)
      requires Valid() && (p != NULL ==> p in blocks)
      modifies this
      ensures Valid()
      ensures blocks == old(blocks) - {p}
      ensures tally == if p == NULL then old(tally) else TallyOut(old(tally), old(blocks)[p])
      ensures p != NULL ==>
        && tally.allocatedSize == old(tally.allocatedSize) && tally.allocatedCount == old(tally.allocatedCount)
        && tally.freedSize == Wrap(old(tally.freedSize) + old(blocks)[p]) && tally.freedCount == Wrap(old(tally.freedCount) + 1)
    {
      if p == NULL {
        assert blocks == blocks - {p};
        return;
      }
      var size := blocks[p];
      SumDrop(blocks, p, Header);
      DropSize(blocks, p);
      BalancedOut(tally, |blocks|, SumOver(blocks, Header), size,
        TallyOut(tally, size), |blocks - {p}|, SumOver(blocks - {p}, Header));
      tally := TallyOut(tally, size);
      blocks := blocks - {p};
    }

    method GetAllocateStats(out: TallyCell?) returns (rc: int)
      requires Valid()
      modifies out
      ensures rc == if out == null then -1 else 0
      ensures rc == 0 ==> out.value == tally && Balanced(out.value, |blocks|, SumOver(blocks, Header))
    {
      if out == null {
        return -1;
      }
      out.value := tally;
      return 0;
    }
  }
}
