// What LldkUnorderedMap is meant to do, on values: a plain map with pointers into it, and beside it a
// direct-mapped cache of keys that only decides how often the map is consulted.
module CacheTrace {
  import opened Basics

  /** `oom`: the allocation of a node, if one is needed, throws. `handle` counts the pointers returned so far. */
  datatype Op<K, V> =
    | Insert(key: K, value: V, oom: bool)
    | Erase(key: K)
    | Find(key: K)
    | Contains(key: K)
    | Clear
    | Index(key: K, oom: bool)
    | Write(handle: nat, value: V)
    | Read(handle: nat)

  datatype Result<V> = Flag(b: bool) | Pointer(target: Option<V>) | Value(v: V) | Threw | Nothing

  // ---------------------------------------------------------------------------------------------
  // The plain map
  // ---------------------------------------------------------------------------------------------

  /** `pointers[h]` is the key whose value the h-th returned pointer points at, or None when it was null or its
      element has been erased since. */
  datatype Plain<K, V> = Plain(entries: map<K, V>, pointers: seq<Option<K>>)

  function Forget<K(==)>(pointers: seq<Option<K>>, key: K): (r: seq<Option<K>>)
    ensures |r| == |pointers|
    ensures forall h :: 0 <= h < |r| ==> r[h] == if pointers[h] == Some(key) then None else pointers[h]
  {
    seq(|pointers|, h requires 0 <= h < |pointers| => if pointers[h] == Some(key) then None else pointers[h])
  }

  function AllGone<K>(pointers: seq<Option<K>>): (r: seq<Option<K>>)
    ensures |r| == |pointers| && forall h :: 0 <= h < |r| ==> r[h] == None
  {
    seq(|pointers|, _ => None)
  }

  /** The program may only go through a pointer whose element is still there. */
  predicate Legal<K, V>(p: Plain<K, V>, op: Op<K, V>) {
    (op.Write? || op.Read? ==>
       op.handle < |p.pointers| && p.pointers[op.handle].Some? && p.pointers[op.handle].value in p.entries)
  }

  function PlainNext<K, V>(p: Plain<K, V>, op: Op<K, V>, default: V): Plain<K, V>
    requires Legal(p, op)
  {
    match op
    case Insert(k, v, oom) => if k in p.entries || oom then p else p.(entries := p.entries[k := v])
    case Erase(k) => Plain(p.entries - {k}, Forget(p.pointers, k))
    case Find(k) => p.(pointers := p.pointers + [if k in p.entries then Some(k) else None])
    case Contains(k) => p
    case Clear => Plain(map[], AllGone(p.pointers))
    case Index(k, oom) =>
      if k !in p.entries && oom then p.(pointers := p.pointers + [None])
      else Plain(if k in p.entries then p.entries else p.entries[k := default], p.pointers + [Some(k)])
    case Write(h, v) => p.(entries := p.entries[p.pointers[h].value := v])
    case Read(h) => p
  }

  function PlainResult<K, V>(p: Plain<K, V>, op: Op<K, V>, default: V): Result<V>
    requires Legal(p, op)
  {
    match op
    case Insert(k, v, oom) => Flag(k !in p.entries && !oom)
    case Erase(k) => Nothing
    case Find(k) => Pointer(if k in p.entries then Some(p.entries[k]) else None)
    case Contains(k) => Flag(k in p.entries)
    case Clear => Nothing
    case Index(k, oom) => if k in p.entries then Value(p.entries[k]) else if oom then Threw else Value(default)
    case Write(h, v) => Nothing
    case Read(h) => Value(p.entries[p.pointers[h].value])
  }

  predicate LegalRun<K, V>(p: Plain<K, V>, ops: seq<Op<K, V>>, default: V)
    decreases |ops|
  {
    ops == [] || (Legal(p, ops[0]) && LegalRun(PlainNext(p, ops[0], default), ops[1..], default))
  }

  function PlainRun<K, V>(p: Plain<K, V>, ops: seq<Op<K, V>>, default: V): seq<Result<V>>
    requires LegalRun(p, ops, default)
    decreases |ops|
  {
    if ops == [] then []
    else [PlainResult(p, ops[0], default)] + PlainRun(PlainNext(p, ops[0], default), ops[1..], default)
  }

  // ---------------------------------------------------------------------------------------------
  // The cache of keys
  // ---------------------------------------------------------------------------------------------

  datatype Cache<K> = Cache(slots: seq<Option<K>>, misses: nat)

  /** A key's slot. */
  function SlotOf<K>(hash: K -> nat, size: nat, k: K): nat
    requires size > 0
  {
    hash(k) % size
  }

  /** A hash below the cache size is its own slot, every slot is one, and two keys share a slot exactly when the
      difference of their hashes is a multiple of the cache size. */
  lemma SlotsAreResidues<K>(hash: K -> nat, size: nat, a: K, b: K)
    requires size > 0
    ensures SlotOf(hash, size, a) < size
    ensures hash(a) < size ==> SlotOf(hash, size, a) == hash(a)
    ensures SlotOf(hash, size, a) == SlotOf(hash, size, b) <==> SameResidue(hash(a), hash(b), size)
  {
    RemaindersAgree(hash(a), hash(b), size);
    if hash(a) < size {
      SmallRemainder(hash(a), size);
    }
  }

  /** The difference is a multiple of `size`. */
  ghost predicate SameResidue(x: int, y: int, size: nat) {
    exists q :: x - y == Multiple(q, size)
  }

  function Multiple(q: int, size: nat): int {
    q * size
  }

  lemma SmallRemainder(x: nat, size: nat)
    requires x < size
    ensures x % size == x
  {
  }

  lemma RemaindersAgree(x: nat, y: nat, size: nat)
    requires size > 0
    ensures x % size == y % size <==> SameResidue(x, y, size)
  {
    if x % size == y % size {
      DifferenceOfMultiples(x / size, y / size, size);
      assert x - y == Multiple(x / size - y / size, size);
    }
    if SameResidue(x, y, size) {
      var q :| x - y == Multiple(q, size);
      EqualRemainders(x, y, q, size);
    }
  }

  lemma DifferenceOfMultiples(a: int, b: int, size: nat)
    ensures a * size - b * size == (a - b) * size
  {
  }

  lemma MultipleOutOfReach(d: int, size: nat)
    ensures d >= 1 ==> d * size >= size
    ensures d <= -1 ==> d * size <= 0 - size
  {
  }

  lemma EqualRemainders(x: nat, y: nat, q: int, size: nat)
    requires size > 0 && x - y == q * size
    ensures x % size == y % size
  {
    var d := x / size - y / size - q;
    DifferenceOfMultiples(x / size, y / size, size);
    DifferenceOfMultiples(x / size - y / size, q, size);
    assert d * size == y % size - x % size;
    MultipleOutOfReach(d, size);
  }

  function Filled<K>(c: Cache<K>, i: nat, k: K): Cache<K>
    requires i < |c.slots|
  {
    c.(slots := c.slots[i := Some(k)])
  }

  /** A lookup of `k` in slot `i`: a hit when the slot holds the key, else a miss that fills the slot if the map has
      the key. */
  function LookedUp<K(==)>(c: Cache<K>, i: nat, k: K, present: bool): Cache<K>
    requires i < |c.slots|
  {
    if c.slots[i] == Some(k) then c
    else
      var c' := c.(misses := c.misses + 1);
      if present then Filled(c', i, k) else c'
  }

  function CacheNext<K(==), V>(c: Cache<K>, hash: K -> nat, entries: map<K, V>, op: Op<K, V>): (c': Cache<K>)
    requires |c.slots| > 0
    ensures |c'.slots| == |c.slots|
  {
    var n := |c.slots|;
    match op
    case Insert(k, v, oom) => if k in entries || oom then c else Filled(c, SlotOf(hash, n, k), k)
    case Erase(k) =>
      var i := SlotOf(hash, n, k);
      if c.slots[i] == Some(k) then c.(slots := c.slots[i := None]) else c
    case Find(k) => LookedUp(c, SlotOf(hash, n, k), k, k in entries)
    case Contains(k) => LookedUp(c, SlotOf(hash, n, k), k, k in entries)
    case Clear => c.(slots := seq(n, _ => None))
    case Index(k, oom) =>
      var i := SlotOf(hash, n, k);
      var c' := LookedUp(c, i, k, k in entries);
      if k in entries || oom then c' else Filled(c', i, k)
    case Write(_, _) => c
    case Read(_) => c
  }

  function CacheRun<K(==), V>(c: Cache<K>, hash: K -> nat, p: Plain<K, V>, ops: seq<Op<K, V>>, default: V): Cache<K>
    requires |c.slots| > 0 && LegalRun(p, ops, default)
    decreases |ops|
  {
    if ops == [] then c
    else CacheRun(CacheNext(c, hash, p.entries, ops[0]), hash, PlainNext(p, ops[0], default), ops[1..], default)
  }

  function PlainAfter<K, V>(p: Plain<K, V>, ops: seq<Op<K, V>>, default: V): Plain<K, V>
    requires LegalRun(p, ops, default)
    decreases |ops|
  {
    if ops == [] then p else PlainAfter(PlainNext(p, ops[0], default), ops[1..], default)
  }

  // ---------------------------------------------------------------------------------------------
  // When no two keys share a slot
  // ---------------------------------------------------------------------------------------------

  predicate HasKey<K, V>(op: Op<K, V>) {
    !op.Clear? && !op.Write? && !op.Read?
  }

  /** The hashes of the trace's keys differ modulo the cache size. */
  ghost predicate ConflictFree<K, V>(hash: K -> nat, size: nat, ops: seq<Op<K, V>>) {
    forall a, b :: a in ops && b in ops && HasKey(a) && HasKey(b) && SameResidue(hash(a.key), hash(b.key), size) ==>
      a.key == b.key
  }

  /** How many find, contains and operator[] calls asked for a key that was absent at the time. */
  function AbsentLookups<K, V>(p: Plain<K, V>, ops: seq<Op<K, V>>, default: V): nat
    requires LegalRun(p, ops, default)
    decreases |ops|
  {
    if ops == [] then 0
    else
      var op := ops[0];
      (if (op.Find? || op.Contains? || op.Index?) && op.key !in p.entries then 1 else 0)
      + AbsentLookups(PlainNext(p, op, default), ops[1..], default)
  }

  /** Every present key is in its slot, and slots hold only present keys. */
  ghost predicate AllCached<K, V>(c: Cache<K>, hash: K -> nat, entries: map<K, V>) {
    && |c.slots| > 0
    && (forall k :: k in entries ==> c.slots[SlotOf(hash, |c.slots|, k)] == Some(k))
    && (forall i :: 0 <= i < |c.slots| && c.slots[i].Some? ==>
          c.slots[i].value in entries && SlotOf(hash, |c.slots|, c.slots[i].value) == i)
  }

  /** The entries' keys are apart from the keys still to come, unless equal. */
  ghost predicate NoClash<K, V>(hash: K -> nat, size: nat, entries: map<K, V>, ops: seq<Op<K, V>>) {
    forall k, a :: k in entries && a in ops && HasKey(a) && SameResidue(hash(k), hash(a.key), size) ==> k == a.key
  }

  lemma StepKeepsAllCached<K, V>(c: Cache<K>, hash: K -> nat, p: Plain<K, V>, op: Op<K, V>, default: V)
    requires Legal(p, op) && AllCached(c, hash, p.entries) && NoClash(hash, |c.slots|, p.entries, [op])
    ensures AllCached(CacheNext(c, hash, p.entries, op), hash, PlainNext(p, op, default).entries)
    ensures CacheNext(c, hash, p.entries, op).misses
            == c.misses + if (op.Find? || op.Contains? || op.Index?) && op.key !in p.entries then 1 else 0
  {
    assert op in [op];
    if HasKey(op) {
      forall k | k in p.entries && k != op.key
        ensures SlotOf(hash, |c.slots|, k) != SlotOf(hash, |c.slots|, op.key)
      {
        SlotsAreResidues(hash, |c.slots|, k, op.key);
      }
    }
  }

  /** In a conflict-free trace every present key is cached after every prefix, and the miss counter counts exactly the
      lookups of absent keys. */
  lemma {:induction false} ConflictFreeLaw<K, V>(c: Cache<K>, hash: K -> nat, p: Plain<K, V>, ops: seq<Op<K, V>>, default: V)
    requires LegalRun(p, ops, default) && AllCached(c, hash, p.entries)
    requires ConflictFree(hash, |c.slots|, ops) && NoClash(hash, |c.slots|, p.entries, ops)
    ensures AllCached(CacheRun(c, hash, p, ops, default), hash, PlainAfter(p, ops, default).entries)
    ensures CacheRun(c, hash, p, ops, default).misses == c.misses + AbsentLookups(p, ops, default)
    decreases |ops|
  {
    if ops != [] {
      var op := ops[0];
      assert op in ops;
      StepKeepsAllCached(c, hash, p, op, default);
      var p' := PlainNext(p, op, default);
      assert forall a :: a in ops[1..] ==> a in ops;
      assert forall k :: k in p'.entries ==> k in p.entries || (HasKey(op) && k == op.key);
      ConflictFreeLaw(CacheNext(c, hash, p.entries, op), hash, p', ops[1..], default);
    }
  }

  lemma {:induction false} LegalPrefix<K, V>(p: Plain<K, V>, ops: seq<Op<K, V>>, n: nat, default: V)
    requires n <= |ops| && LegalRun(p, ops, default)
    ensures LegalRun(p, ops[..n], default)
    decreases n
  {
    if n > 0 {
      LegalPrefix(PlainNext(p, ops[0], default), ops[1..], n - 1, default);
      assert ops[..n][1..] == ops[1..][..n - 1];
    }
  }

  /** The same for a new map, after any prefix of the trace. */
  lemma ConflictFreeFromEmpty<K, V>(hash: K -> nat, size: nat, ops: seq<Op<K, V>>, n: nat, default: V)
    requires size > 0 && n <= |ops| && LegalRun(Plain(map[], []), ops, default) && ConflictFree(hash, size, ops)
    ensures LegalRun(Plain(map[], []), ops[..n], default)
    ensures
      var c := CacheRun(Cache(seq(size, _ => None), 0), hash, Plain(map[], []), ops[..n], default);
      && AllCached(c, hash, PlainAfter(Plain(map[], []), ops[..n], default).entries)
      && c.misses == AbsentLookups(Plain(map[], []), ops[..n], default)
  {
    LegalPrefix(Plain(map[], []), ops, n, default);
    assert forall a :: a in ops[..n] ==> a in ops;
    ConflictFreeLaw(Cache(seq(size, _ => None), 0), hash, Plain(map[], []), ops[..n], default);
  }
}
