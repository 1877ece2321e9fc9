// LldkBitset<kSize>: a set of positions packed into 64-bit words (src/utilities/lldk_bitset.h).
module Bitset {
  import opened Words

  // ---------------------------------------------------------------------------------------------
  // The set a word array stands for
  // ---------------------------------------------------------------------------------------------

  /** A bit's address: the word it is in and its index there. */
  type Address = (nat, bv6)

  /** `getArrayIndex` and `getBitIndex` */
  function AddressOf(p: nat): Address {
    (p / 64, BitIndex(p))
  }

  /** The addresses of the bits that are set. */
  ghost function Ones(ws: seq<bv64>): iset<Address> {
    iset a: Address | a.0 < |ws| && Bit(ws[a.0], a.1)
  }

  /** The positions below `limit` whose address is in `ones`. */
  ghost function Positions(ones: iset<Address>, limit: nat): set<nat> {
    set p: nat | p < limit && AddressOf(p) in ones
  }

  /** The set of positions a word array stands for. */
  ghost function Members(ws: seq<bv64>): set<nat> {
    Positions(Ones(ws), 64 * |ws|)
  }

  ghost function Below(n: nat): (s: set<nat>)
    ensures forall p: nat :: p in s <==> p < n
    ensures |s| == n
  {
    if n == 0 then {} else Below(n - 1) + {n - 1}
  }

  /** The least position that is not in `s`, or `limit` when [0, limit) is full. */
  ghost function LeastFree(s: set<nat>, limit: nat): nat {
    LeastFreeFrom(s, 0, limit)
  }

  ghost function LeastFreeFrom(s: set<nat>, i: nat, limit: nat): nat
    requires i <= limit
    decreases limit - i
  {
    if i == limit || i !in s then i else LeastFreeFrom(s, i + 1, limit)
  }

  lemma {:induction false} LeastFreeFromIsLeast(s: set<nat>, i: nat, limit: nat)
    requires i <= limit
    ensures i <= LeastFreeFrom(s, i, limit) <= limit
    ensures LeastFreeFrom(s, i, limit) < limit ==> LeastFreeFrom(s, i, limit) !in s
    ensures forall j :: i <= j < LeastFreeFrom(s, i, limit) ==> j in s
    decreases limit - i
  {
    if i < limit && i in s {
      LeastFreeFromIsLeast(s, i + 1, limit);
    }
  }

  /** A position is the least free one exactly when it is free and everything below it is taken. */
  lemma LeastFreeUnique(s: set<nat>, limit: nat, r: nat)
    requires r <= limit
    ensures r == LeastFree(s, limit) <==> (r < limit ==> r !in s) && forall j :: 0 <= j < r ==> j in s
  {
    LeastFreeFromIsLeast(s, 0, limit);
  }

  lemma LeastFreeIsFree(s: set<nat>, limit: nat)
    ensures LeastFree(s, limit) <= limit
    ensures LeastFree(s, limit) < limit ==> LeastFree(s, limit) !in s
  {
    LeastFreeFromIsLeast(s, 0, limit);
  }

  /** `limit` is the answer exactly when no position is free. */
  lemma LeastFreeIsLimit(s: set<nat>, limit: nat)
    requires s <= Below(limit)
    ensures LeastFree(s, limit) == limit <==> |s| == limit
  {
    LeastFreeFromIsLeast(s, 0, limit);
    if LeastFree(s, limit) == limit {
      assert s == Below(limit);
    } else {
      assert LeastFree(s, limit) in Below(limit) - s;
      ProperSubsetSize(s, Below(limit));
    }
  }

  lemma ProperSubsetSize(a: set<nat>, b: set<nat>)
    requires a < b
    ensures |a| < |b|
  {
    assert b == a + (b - a);
  }

  /** The capacity in words, computed in `uint32_t`: at the largest legal size the sum `kSize + 64` wraps to 0. */
  function WordCount(kSize: uint32): uint32 {
    (((kSize as int + 64) % 0x1_0000_0000 - 1) % 0x1_0000_0000 / 64) as uint32
  }

  predicate LegalSize(kSize: uint32) {
    0 < kSize && kSize % 64 == 0
  }

  lemma WordCountIsExact(kSize: uint32)
    requires LegalSize(kSize)
    ensures 64 * (WordCount(kSize) as int) == kSize as int
  {
    if kSize == 0xFFFF_FFC0 {
      assert (kSize as int + 64) % 0x1_0000_0000 == 0;
    }
  }

  // ---------------------------------------------------------------------------------------------
  // Packing: one write changes one position
  // ---------------------------------------------------------------------------------------------

  /** Word and bit index together identify a position. */
  lemma AddressIdentifies(p: nat, q: nat)
    ensures AddressOf(p) == AddressOf(q) <==> p == q
  {
    BitIndexValue(p);
    BitIndexValue(q);
  }

  lemma RewriteOnes(ws: seq<bv64>, a: Address, w: bv64, on: bool)
    requires a.0 < |ws|
    requires forall b :: Bit(w, b) <==> if b == a.1 then on else Bit(ws[a.0], b)
    ensures Ones(ws[a.0 := w]) == if on then Ones(ws) + iset{a} else Ones(ws) - iset{a}
  {
  }

  lemma AddPosition(ones: iset<Address>, p: nat, limit: nat)
    requires p < limit
    ensures Positions(ones + iset{AddressOf(p)}, limit) == Positions(ones, limit) + {p}
    ensures Positions(ones - iset{AddressOf(p)}, limit) == Positions(ones, limit) - {p}
  {
    forall q: nat ensures AddressOf(q) == AddressOf(p) <==> q == p {
      AddressIdentifies(q, p);
    }
  }

  lemma RewriteMembers(ws: seq<bv64>, p: nat, w: bv64, on: bool)
    requires p / 64 < |ws|
    requires forall b :: Bit(w, b) <==> if b == BitIndex(p) then on else Bit(ws[p / 64], b)
    ensures Members(ws[p / 64 := w]) == if on then Members(ws) + {p} else Members(ws) - {p}
  {
    RewriteOnes(ws, AddressOf(p), w, on);
    AddPosition(Ones(ws), p, 64 * |ws|);
  }

  /** `|= (uint64_t)1 << b` */
  method OrMask(w: bv64, b: bv6) returns (r: bv64)
    ensures forall c :: Bit(r, c) <==> if c == b then true else Bit(w, c)
  {
    r := w | Mask(b);
    SetBits(w, b);
  }

  /** `&= ~((uint64_t)1 << b)` */
  method AndNotMask(w: bv64, b: bv6) returns (r: bv64)
    ensures forall c :: Bit(r, c) <==> if c == b then false else Bit(w, c)
  {
    r := w & !Mask(b);
    ClearBits(w, b);
  }

  // ---------------------------------------------------------------------------------------------
  // Whole words
  // ---------------------------------------------------------------------------------------------

  lemma SplitPosition(q: nat, k: nat, c: bv6)
    ensures q < 64 * k + c as int <==> q / 64 < k || (q / 64 == k && BitIndex(q) < c)
  {
    BitIndexValue(q);
    LessAsInt(BitIndex(q), c);
  }

  lemma AddressOfBit(k: nat, c: bv6)
    ensures AddressOf(64 * k + c as int) == (k, c)
  {
    var p := 64 * k + c as int;
    assert p / 64 == k && p % 64 == c as int;
    BitIndexValue(p);
    LessAsInt(BitIndex(p), c);
    LessAsInt(c, BitIndex(p));
  }

  lemma LessAsInt(a: bv6, b: bv6)
    ensures a < b <==> a as int < b as int
  {
  }

  /** All words before `k` empty and `c` the lowest bit of word `k`: that bit is the least member. */
  lemma LowestMember(ws: seq<bv64>, k: nat, c: bv6)
    requires k < |ws| && forall i :: 0 <= i < k ==> ws[i] == 0
    requires Bit(ws[k], c) && forall b :: b < c ==> !Bit(ws[k], b)
    ensures 64 * k + c as int in Members(ws)
    ensures forall q: nat :: q < 64 * k + c as int ==> q !in Members(ws)
  {
    forall q: nat ensures q < 64 * k + c as int ==> q !in Members(ws) {
      SplitPosition(q, k, c);
      ZeroHasNoBit(BitIndex(q));
    }
    AddressOfBit(k, c);
  }

  /** All words before `k` full and `c` the lowest clear bit of word `k`: that is the least free position. */
  lemma LowestFree(ws: seq<bv64>, k: nat, c: bv6)
    requires k < |ws| && forall i :: 0 <= i < k ==> ws[i] == ALL_ONES
    requires !Bit(ws[k], c) && forall b :: b < c ==> Bit(ws[k], b)
    ensures 64 * k + c as int !in Members(ws)
    ensures forall q: nat :: q < 64 * k + c as int ==> q in Members(ws)
  {
    forall q: nat ensures q < 64 * k + c as int ==> q in Members(ws) {
      SplitPosition(q, k, c);
      OnesHasEveryBit(BitIndex(q));
    }
    AddressOfBit(k, c);
  }

  lemma EmptyWords(ws: seq<bv64>)
    requires forall i :: 0 <= i < |ws| ==> ws[i] == 0
    ensures Members(ws) == {}
  {
    forall q: nat ensures q !in Members(ws) {
      ZeroHasNoBit(BitIndex(q));
    }
  }

  lemma FullWords(ws: seq<bv64>)
    requires forall i :: 0 <= i < |ws| ==> ws[i] == ALL_ONES
    ensures Members(ws) == Below(64 * |ws|)
  {
    forall q: nat | q < 64 * |ws| ensures q in Members(ws) {
      OnesHasEveryBit(BitIndex(q));
    }
  }

  lemma LowestFreeIsLeast(ws: seq<bv64>, k: nat, c: bv6)
    requires k < |ws| && forall i :: 0 <= i < k ==> ws[i] == ALL_ONES
    requires !Bit(ws[k], c) && forall b :: b < c ==> Bit(ws[k], b)
    ensures LeastFree(Members(ws), 64 * |ws|) == 64 * k + c as int < 64 * |ws|
  {
    LowestFree(ws, k, c);
    LeastFreeUnique(Members(ws), 64 * |ws|, 64 * k + c as int);
  }

  lemma FullWordsHaveNoneFree(ws: seq<bv64>)
    requires forall i :: 0 <= i < |ws| ==> ws[i] == ALL_ONES
    ensures LeastFree(Members(ws), 64 * |ws|) == 64 * |ws|
  {
    FullWords(ws);
    LeastFreeUnique(Members(ws), 64 * |ws|, 64 * |ws|);
  }

  lemma LowestFreeIsNotAll(ws: seq<bv64>, k: nat, c: bv6)
    requires k < |ws| && forall i :: 0 <= i < k ==> ws[i] == ALL_ONES
    requires !Bit(ws[k], c) && forall b :: b < c ==> Bit(ws[k], b)
    ensures Members(ws) != Below(64 * |ws|) && |Members(ws)| < 64 * |ws|
  {
    LowestFree(ws, k, c);
    assert 64 * k + c as int in Below(64 * |ws|);
    ProperSubsetSize(Members(ws), Below(64 * |ws|));
  }

  lemma FullWordsAreAll(ws: seq<bv64>)
    requires forall i :: 0 <= i < |ws| ==> ws[i] == ALL_ONES
    ensures Members(ws) == Below(64 * |ws|) && |Members(ws)| == 64 * |ws|
  {
    FullWords(ws);
  }

  /** `r` is the least member, or `limit` exactly when there is none. */
  ghost predicate IsFirst(s: set<nat>, limit: nat, r: nat) {
    && r <= limit && (r < limit ==> r in s) && (forall q: nat :: q < r ==> q !in s)
    && (r == limit <==> s == {})
  }

  lemma FirstIsLeastMember(s: set<nat>, limit: nat, r: nat)
    requires s <= Below(limit)
    ensures IsFirst(s, limit, r) <==> if s == {} then r == limit else r in s && forall q :: q in s ==> r <= q
  {
    if s != {} {
      var q :| q in s;
      assert q in Below(limit);
    }
  }

  lemma LowestMemberIsFirst(ws: seq<bv64>, k: nat, c: bv6)
    requires k < |ws| && forall i :: 0 <= i < k ==> ws[i] == 0
    requires Bit(ws[k], c) && forall b :: b < c ==> !Bit(ws[k], b)
    ensures IsFirst(Members(ws), 64 * |ws|, 64 * k + c as int) && 64 * k + c as int < 64 * |ws|
  {
    LowestMember(ws, k, c);
  }

  lemma EmptyWordsHaveNoFirst(ws: seq<bv64>)
    requires forall i :: 0 <= i < |ws| ==> ws[i] == 0
    ensures IsFirst(Members(ws), 64 * |ws|, 64 * |ws|)
  {
    EmptyWords(ws);
  }

  // Counting

  lemma {:induction false} CountWord(ws: seq<bv64>, k: nat, n: nat)
    requires k < |ws| && n <= 64
    ensures |Positions(Ones(ws), 64 * k + n)| == |Positions(Ones(ws), 64 * k)| + PopcountBelow(ws[k], n)
  {
    if n > 0 {
      CountWord(ws, k, n - 1);
      CountBit(ws, k, n - 1);
    }
  }

  lemma CountBit(ws: seq<bv64>, k: nat, i: nat)
    requires k < |ws| && i < 64
    ensures |Positions(Ones(ws), 64 * k + i + 1)| == |Positions(Ones(ws), 64 * k + i)| + if Bit(ws[k], BitIndex(i)) then 1 else 0
  {
    OneMore(Ones(ws), 64 * k + i);
    AddressInWord(k, i);
  }

  lemma AddressInWord(k: nat, i: nat)
    requires i < 64
    ensures AddressOf(64 * k + i) == (k, BitIndex(i))
  {
    assert (64 * k + i) % 64 == i && (64 * k + i) / 64 == k;
    SameBitIndex(64 * k + i, i);
  }

  lemma OneMore(ones: iset<Address>, p: nat)
    ensures |Positions(ones, p + 1)| == |Positions(ones, p)| + if AddressOf(p) in ones then 1 else 0
  {
    if AddressOf(p) in ones {
      assert Positions(ones, p + 1) == Positions(ones, p) + {p};
    } else {
      assert Positions(ones, p + 1) == Positions(ones, p);
    }
  }

  // ---------------------------------------------------------------------------------------------
  // The class
  // ---------------------------------------------------------------------------------------------

  class LldkBitset {
    const kSize: uint32
    const bits: array<bv64>

    ghost predicate Valid() {
      LegalSize(kSize) && bits.Length == WordCount(kSize) as int
    }

    ghost function Contents(): set<nat>
      reads bits
    {
      Members(bits[..])
    }

    constructor (size: uint32)
      requires LegalSize(size)
      ensures Valid() && fresh(bits) && kSize == size
      ensures Contents() == {}
    {
      kSize := size;
      bits := new bv64[WordCount(size)](_ => 0);
      new;
      EmptyWords(bits[..]);
    }

    method Test(uIndex: uint32) returns (b: bool)
      requires Valid() && uIndex < kSize
      ensures b <==> uIndex as int in Contents()
    {
      WordCountIsExact(kSize);
      var i := uIndex as int / 64;
      b := bits[i] & Mask(BitIndex(uIndex as int)) != 0;
      MaskTestsBit(bits[i], BitIndex(uIndex as int));
    }

    method Set(uIndex: uint32)
      requires Valid() && uIndex < kSize
      modifies bits
      ensures Contents() == old(Contents()) + {uIndex as int}
    {
      WordCountIsExact(kSize);
      var i := uIndex as int / 64;
      var w := OrMask(bits[i], BitIndex(uIndex as int));
      RewriteMembers(bits[..], uIndex as int, w, true);
      bits[i] := w;
      assert bits[..] == old(bits[..])[i := w];
    }

    method Clear(uIndex: uint32)
      requires Valid() && uIndex < kSize
      modifies bits
      ensures Contents() == old(Contents()) - {uIndex as int}
    {
      WordCountIsExact(kSize);
      var i := uIndex as int / 64;
      var w := AndNotMask(bits[i], BitIndex(uIndex as int));
      RewriteMembers(bits[..], uIndex as int, w, false);
      bits[i] := w;
      assert bits[..] == old(bits[..])[i := w];
    }

    method TestAll() returns (b: bool)
      requires Valid()
      ensures b <==> Contents() == Below(kSize as int)
      ensures b <==> |Contents()| == kSize as int
    {
      WordCountIsExact(kSize);
      var i: uint32 := 0;
      while i < WordCount(kSize)
        invariant i <= WordCount(kSize)
        invariant forall j :: 0 <= j < i as int ==> bits[j] == ALL_ONES
      {
        if bits[i] != ALL_ONES {
          var c := TrailingOnes(bits[i]);
          LowestFreeIsNotAll(bits[..], i as int, c);
          return false;
        }
        i := i + 1;
      }
      FullWordsAreAll(bits[..]);
      return true;
    }

    method TestAny() returns (b: bool)
      requires Valid()
      ensures b <==> |Contents()| > 0
    {
      var i: uint32 := 0;
      while i < WordCount(kSize)
        invariant i <= WordCount(kSize)
        invariant forall j :: 0 <= j < i as int ==> bits[j] == 0
      {
        if bits[i] != 0 {
          var c := TrailingZeros(bits[i]);
          LowestMember(bits[..], i as int, c);
          return true;
        }
        i := i + 1;
      }
      EmptyWords(bits[..]);
      return false;
    }

    method TestNone() returns (b: bool)
      requires Valid()
      ensures b <==> |Contents()| == 0
    {
      var any := TestAny();
      b := !any;
    }

    method ClearAll()
      requires Valid()
      modifies bits
      ensures Contents() == {}
    {
      forall i | 0 <= i < bits.Length {
        bits[i] := 0;
      }
      EmptyWords(bits[..]);
    }

    method SetAll()
      requires Valid()
      modifies bits
      ensures Contents() == Below(kSize as int)
    {
      WordCountIsExact(kSize);
      forall i | 0 <= i < bits.Length {
        bits[i] := ALL_ONES;
      }
      FullWords(bits[..]);
    }

    /** The `uint32_t` sum never wraps: it is bounded by 64 bits a word. */
    method Count() returns (uCount: uint32)
      requires Valid()
      ensures uCount as int == |Contents()| <= kSize as int
    {
      WordCountIsExact(kSize);
      uCount := 0;
      var i: uint32 := 0;
      assert Positions(Ones(bits[..]), 0) == {};
      while i < WordCount(kSize)
        invariant i <= WordCount(kSize)
        invariant uCount as int == |Positions(Ones(bits[..]), 64 * (i as int))|
        invariant uCount as int <= 64 * (i as int)
      {
        CountWord(bits[..], i as int, 64);
        uCount := uCount + Popcount(bits[i]) as uint32;
        i := i + 1;
      }
    }

    method FindFirstSet() returns (r: uint32)
      requires Valid()
      ensures IsFirst(Contents(), kSize as int, r as int)
    {
      WordCountIsExact(kSize);
      var i: uint32 := 0;
      while i < WordCount(kSize)
        invariant i <= WordCount(kSize)
        invariant forall j :: 0 <= j < i as int ==> bits[j] == 0
      {
        if bits[i] != 0 {
          var c := TrailingZeros(bits[i]);
          LowestMemberIsFirst(bits[..], i as int, c);
          return i * 64 + c as uint32;
        }
        i := i + 1;
      }
      EmptyWordsHaveNoFirst(bits[..]);
      return kSize;
    }

    method FindFirstNone() returns (r: uint32)
      requires Valid()
      ensures r as int == LeastFree(Contents(), kSize as int)
    {
      WordCountIsExact(kSize);
      var i: uint32 := 0;
      while i < WordCount(kSize)
        invariant i <= WordCount(kSize)
        invariant forall j :: 0 <= j < i as int ==> bits[j] == ALL_ONES
      {
        if bits[i] != ALL_ONES {
          var c := TrailingOnes(bits[i]);
          LowestFreeIsLeast(bits[..], i as int, c);
          return i * 64 + c as uint32;
        }
        i := i + 1;
      }
      FullWordsHaveNoneFree(bits[..]);
      return kSize;
    }
  }
}
