// Sums over finite maps, and congruence modulo 2^64 for the allocator's counters.
module Sums {

  /** The sum of `f` over the values of `m`. */
  ghost function SumOver<K, V>(m: map<K, V>, f: V -> nat): nat
    decreases |m|
  {
    if m == map[] then 0
    else
      var k :| k in m;
      f(m[k]) + SumOver(m - {k}, f)
  }

  lemma {:induction false} SumTake<K, V>(m: map<K, V>, k: K, f: V -> nat)
    requires k in m
    ensures SumOver(m, f) == f(m[k]) + SumOver(m - {k}, f)
    decreases |m|
  {
    var j :| j in m && SumOver(m, f) == f(m[j]) + SumOver(m - {j}, f);
    if j != k {
      SumTake(m - {j}, k, f);
      SumTake(m - {k}, j, f);
      assert m - {j} - {k} == m - {k} - {j};
    }
  }

  /** Overwriting one entry changes the sum by the difference of the two values. */
  lemma SumPut<K, V>(m: map<K, V>, k: K, v: V, f: V -> nat)
    ensures SumOver(m[k := v], f) == SumOver(m, f) - (if k in m then f(m[k]) else 0) + f(v)
  {
    SumTake(m[k := v], k, f);
    if k in m {
      SumTake(m, k, f);
      assert m[k := v] - {k} == m - {k};
    } else {
      assert m[k := v] - {k} == m;
    }
  }

  lemma SumDrop<K, V>(m: map<K, V>, k: K, f: V -> nat)
    requires k in m
    ensures SumOver(m - {k}, f) == SumOver(m, f) - f(m[k])
  {
    SumTake(m, k, f);
  }

  lemma {:induction false} SumZero<K, V>(m: map<K, V>, f: V -> nat)
    requires forall k :: k in m ==> f(m[k]) == 0
    ensures SumOver(m, f) == 0
    decreases |m|
  {
    if m != map[] {
      var k :| k in m;
      SumTake(m, k, f);
      SumZero(m - {k}, f);
    }
  }

  const WORD: int := 0x1_0000_0000_0000_0000

  /** A value as `uint64_t` arithmetic leaves it. */
  function Wrap(x: int): int {
    x % WORD
  }

  /** The least value that does not fit in 64 bits. */
  lemma WordIsPastAllOnes()
    ensures 0xFFFF_FFFF_FFFF_FFFF as bv64 as int + 1 == WORD
    ensures WORD == 0x1_0000_0000 * 0x1_0000_0000
  {
  }

  /** The value a 64-bit word holds: the only one in its range that is congruent to `x`. */
  lemma WrapIsWord(x: int, w: int)
    ensures w == Wrap(x) <==> 0 <= w < WORD && Congruent(x, w)
  {
    CongruentIsSameWord(x, w);
  }

  function Words(q: int): int {
    q * WORD
  }

  /** Equal modulo 2^64. */
  ghost predicate Congruent(x: int, y: int) {
    exists q :: x - y == Words(q)
  }

  /** In the program's terms: the same `uint64_t` value. */
  lemma CongruentIsSameWord(x: int, y: int)
    ensures Congruent(x, y) <==> Wrap(x) == Wrap(y)
  {
    if Wrap(x) == Wrap(y) {
      assert x - y == Words(x / WORD - y / WORD);
    }
    if Congruent(x, y) {
      var q :| x - y == Words(q);
      SameRemainder(x, y, q);
    }
  }

  lemma SameRemainder(x: int, y: int, q: int)
    requires x == y + q * WORD
    ensures x % WORD == y % WORD
  {
  }

  lemma CongruentByMultiple(x: int, y: int, q: int)
    requires x - y == q * WORD
    ensures Congruent(x, y)
  {
    assert x - y == Words(q);
  }

  lemma MultipleOf(x: int, y: int) returns (q: int)
    requires Congruent(x, y)
    ensures x - y == q * WORD
  {
    q :| x - y == Words(q);
  }

  /** Adding `d` to the minuend of a difference, in `uint64_t`. */
  lemma CountedIn(a: int, f: int, n: int, d: int)
    requires Congruent(a - f, n)
    ensures Congruent(Wrap(a + d) - f, n + d)
  {
    var q := MultipleOf(a - f, n);
    CongruentByMultiple(Wrap(a + d) - f, n + d, q - (a + d) / WORD);
  }

  /** Adding `d` to the subtrahend of a difference, in `uint64_t`. */
  lemma CountedOut(a: int, f: int, n: int, d: int)
    requires Congruent(a - f, n)
    ensures Congruent(a - Wrap(f + d), n - d)
  {
    var q := MultipleOf(a - f, n);
    CongruentByMultiple(a - Wrap(f + d), n - d, q + (f + d) / WORD);
  }

  lemma WrapNext(x: int)
    ensures Wrap(Wrap(x) + 1) == Wrap(x + 1)
  {
  }

  /** How often a sum wrapped. */
  lemma WrapCarries(x: int) returns (carry: int)
    ensures Wrap(x) == x - WORD * carry && 0 <= Wrap(x) < WORD
  {
    carry := x / WORD;
  }

  lemma WrappedTo(x: int, n: nat, carry: int)
    requires 0 <= x < WORD && x == n - WORD * carry
    ensures x == Wrap(n)
  {
    CongruentByMultiple(n, x, carry);
    WrapIsWord(n, x);
  }
}
