// 64-bit words as sets of bit positions, and the two compiler builtins the bitset calls on them.
module Words {

  newtype uint32 = x: int | 0 <= x < 0x1_0000_0000

  const ALL_ONES: bv64 := 0xFFFF_FFFF_FFFF_FFFF

  /** Bit `b` of `w`: its binary digit of weight 2^b. */
  predicate Bit(w: bv64, b: bv6) {
    (w >> b) & 1 == 1
  }

  /** The one-bit mask the source builds, `(uint64_t)1 << b`. */
  function Mask(b: bv6): bv64 {
    1 << b
  }

  lemma MaskTestsBit(w: bv64, b: bv6)
    ensures w & Mask(b) != 0 <==> Bit(w, b)
  {
  }

  /** The bit of a word that holds position `p`. On 32-bit indices `p % 64` is the source's `p & 63`
      (MaskIsRemainder). */
  function BitIndex(p: nat): bv6 {
    (p % 64) as bv6
  }

  lemma MaskIsRemainder(u: bv32)
    ensures u & 63 == u % 64
    ensures u == u / 64 * 64 + (u & 63)
  {
  }

  lemma SetBit(w: bv64, i: bv6, j: bv6)
    ensures Bit(w | Mask(i), j) <==> j == i || Bit(w, j)
  {
  }

  lemma ClearBit(w: bv64, i: bv6, j: bv6)
    ensures Bit(w & !Mask(i), j) <==> j != i && Bit(w, j)
  {
  }

  lemma SetBits(w: bv64, i: bv6)
    ensures forall j :: Bit(w | Mask(i), j) <==> if j == i then true else Bit(w, j)
  {
    forall j ensures Bit(w | Mask(i), j) <==> if j == i then true else Bit(w, j) {
      SetBit(w, i, j);
    }
  }

  lemma ClearBits(w: bv64, i: bv6)
    ensures forall j :: Bit(w & !Mask(i), j) <==> if j == i then false else Bit(w, j)
  {
    forall j ensures Bit(w & !Mask(i), j) <==> if j == i then false else Bit(w, j) {
      ClearBit(w, i, j);
    }
  }

  lemma NotBit(w: bv64, j: bv6)
    ensures Bit(!w, j) <==> !Bit(w, j)
  {
  }

  lemma BitIndexValue(p: nat)
    ensures BitIndex(p) as int == p % 64
  {
    ConvertBack(p % 64);
  }

  lemma SameBitIndex(p: nat, q: nat)
    requires p % 64 == q % 64
    ensures BitIndex(p) == BitIndex(q)
  {
  }

  lemma ConvertBack(i: nat)
    requires i < 64
    ensures (i as bv6) as int == i
  {
  }

  /** `__builtin_ctzll`: the index of the lowest set bit, undefined on zero. */
  function Ctz(w: bv64): (r: bv6)
    requires w != 0
  {
    var low := w & (!w + 1);
    (if low & 0x0000_0000_FFFF_FFFF == 0 then 32 else 0)
    | (if low & 0x0000_FFFF_0000_FFFF == 0 then 16 else 0)
    | (if low & 0x00FF_00FF_00FF_00FF == 0 then 8 else 0)
    | (if low & 0x0F0F_0F0F_0F0F_0F0F == 0 then 4 else 0)
    | (if low & 0x3333_3333_3333_3333 == 0 then 2 else 0)
    | (if low & 0x5555_5555_5555_5555 == 0 then 1 else 0)
  }

  lemma CtzIsSet(w: bv64)
    requires w != 0
    ensures Bit(w, Ctz(w))
  {
  }

  lemma CtzIsLowest(w: bv64, b: bv6)
    requires w != 0 && b < Ctz(w)
    ensures !Bit(w, b)
  {
  }

  lemma ZeroHasNoBit(b: bv6)
    ensures !Bit(0, b)
  {
  }

  lemma OnesHasEveryBit(b: bv6)
    ensures Bit(ALL_ONES, b)
  {
  }

  /** `__builtin_ctzll` as its caller sees it. */
  method TrailingZeros(w: bv64) returns (c: bv6)
    requires w != 0
    ensures Bit(w, c)
    ensures forall b :: b < c ==> !Bit(w, b)
  {
    c := Ctz(w);
    CtzIsSet(w);
    forall b: bv6 | b < c ensures !Bit(w, b) {
      CtzIsLowest(w, b);
    }
  }

  /** `__builtin_ctzll(~w)`: the index of the lowest clear bit. */
  method TrailingOnes(w: bv64) returns (c: bv6)
    requires w != ALL_ONES
    ensures !Bit(w, c)
    ensures forall b :: b < c ==> Bit(w, b)
  {
    c := TrailingZeros(!w);
    NotBit(w, c);
    forall b: bv6 | b < c ensures Bit(w, b) {
      NotBit(w, b);
    }
  }

  /** `__builtin_popcountll`: how many of the 64 bits are set. */
  function Popcount(w: bv64): (n: nat)
    ensures n <= 64
  {
    PopcountBelow(w, 64)
  }

  function PopcountBelow(w: bv64, n: nat): (r: nat)
    ensures r <= n
  {
    if n == 0 then 0 else PopcountBelow(w, n - 1) + if Bit(w, BitIndex(n - 1)) then 1 else 0
  }
}
