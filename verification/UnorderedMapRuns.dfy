// Whole traces of LldkUnorderedMap, with writes and reads through returned pointers, against the plain map.
module UnorderedMapRuns {
  import opened CacheTrace
  import opened Basics
  import opened Sums
  import opened UnorderedMap

  /** The cached map `m` and the pointers it has returned stand for the plain map `p` and the cache of keys `c`. */
  ghost predicate Agrees<K, V>(m: LldkUnorderedMap<K, V>, pointers: seq<Node?<K, V>>, p: Plain<K, V>, c: Cache<K>)
    reads m, m.arrEntries, m.mapEntries.Values
  {
    && m.Valid()
    && m.Entries() == p.entries
    && m.Slots() == c.slots && m.cachemissCount == Wrap(c.misses)
    && |pointers| == |p.pointers|
    && forall h :: 0 <= h < |pointers| && p.pointers[h].Some? ==>
         p.pointers[h].value in m.mapEntries && pointers[h] == m.mapEntries[p.pointers[h].value]
  }

  function Target<K, V>(r: Node?<K, V>): Option<V>
    reads r
  {
    if r == null then None else Some(r.value)
  }

  // One operation at a time: the cached map answers as the plain map does, and caches as the cache of keys does.

  method StepInsert<K, V>(m: LldkUnorderedMap<K, V>, op: Op<K, V>, pointers: seq<Node?<K, V>>,
    ghost p: Plain<K, V>, ghost c: Cache<K>)
    returns (result: Result<V>, pointers': seq<Node?<K, V>>)
    requires Agrees(m, pointers, p, c) && Legal(p, op) && op.Insert?
    modifies m, m.arrEntries, m.mapEntries.Values
    ensures result == PlainResult(p, op, m.default)
    ensures |c.slots| > 0 && Agrees(m, pointers', PlainNext(p, op, m.default), CacheNext(c, m.hashFunc, p.entries, op))
    ensures fresh(m.mapEntries.Values - old(m.mapEntries.Values))
  {
    var ok := m.Insert(op.key, op.value, op.oom);
    result := Flag(ok);
    pointers' := pointers;
  }

  method StepErase<K, V>(m: LldkUnorderedMap<K, V>, op: Op<K, V>, pointers: seq<Node?<K, V>>,
    ghost p: Plain<K, V>, ghost c: Cache<K>)
    returns (result: Result<V>, pointers': seq<Node?<K, V>>)
    requires Agrees(m, pointers, p, c) && Legal(p, op) && op.Erase?
    modifies m, m.arrEntries, m.mapEntries.Values
    ensures result == PlainResult(p, op, m.default)
    ensures |c.slots| > 0 && Agrees(m, pointers', PlainNext(p, op, m.default), CacheNext(c, m.hashFunc, p.entries, op))
    ensures fresh(m.mapEntries.Values - old(m.mapEntries.Values))
  {
    m.Erase(op.key);
    result := Nothing;
    pointers' := pointers;
  }

  method StepFind<K, V>(m: LldkUnorderedMap<K, V>, op: Op<K, V>, pointers: seq<Node?<K, V>>,
    ghost p: Plain<K, V>, ghost c: Cache<K>)
    returns (result: Result<V>, pointers': seq<Node?<K, V>>)
    requires Agrees(m, pointers, p, c) && Legal(p, op) && op.Find?
    modifies m, m.arrEntries, m.mapEntries.Values
    ensures result == PlainResult(p, op, m.default)
    ensures |c.slots| > 0 && Agrees(m, pointers', PlainNext(p, op, m.default), CacheNext(c, m.hashFunc, p.entries, op))
    ensures fresh(m.mapEntries.Values - old(m.mapEntries.Values))
  {
    WrapNext(c.misses);
    var r := m.Find(op.key);
    result := Pointer(Target(r));
    pointers' := pointers + [r];
  }

  method StepContains<K, V>(m: LldkUnorderedMap<K, V>, op: Op<K, V>, pointers: seq<Node?<K, V>>,
    ghost p: Plain<K, V>, ghost c: Cache<K>)
    returns (result: Result<V>, pointers': seq<Node?<K, V>>)
    requires Agrees(m, pointers, p, c) && Legal(p, op) && op.Contains?
    modifies m, m.arrEntries, m.mapEntries.Values
    ensures result == PlainResult(p, op, m.default)
    ensures |c.slots| > 0 && Agrees(m, pointers', PlainNext(p, op, m.default), CacheNext(c, m.hashFunc, p.entries, op))
    ensures fresh(m.mapEntries.Values - old(m.mapEntries.Values))
  {
    WrapNext(c.misses);
    var b := m.Contains(op.key);
    result := Flag(b);
    pointers' := pointers;
  }

  method StepClear<K, V>(m: LldkUnorderedMap<K, V>, op: Op<K, V>, pointers: seq<Node?<K, V>>,
    ghost p: Plain<K, V>, ghost c: Cache<K>)
    returns (result: Result<V>, pointers': seq<Node?<K, V>>)
    requires Agrees(m, pointers, p, c) && Legal(p, op) && op.Clear?
    modifies m, m.arrEntries, m.mapEntries.Values
    ensures result == PlainResult(p, op, m.default)
    ensures |c.slots| > 0 && Agrees(m, pointers', PlainNext(p, op, m.default), CacheNext(c, m.hashFunc, p.entries, op))
    ensures fresh(m.mapEntries.Values - old(m.mapEntries.Values))
  {
    m.Clear();
    result := Nothing;
    pointers' := pointers;
  }

  method StepIndex<K, V>(m: LldkUnorderedMap<K, V>, op: Op<K, V>, pointers: seq<Node?<K, V>>,
    ghost p: Plain<K, V>, ghost c: Cache<K>)
    returns (result: Result<V>, pointers': seq<Node?<K, V>>)
    requires Agrees(m, pointers, p, c) && Legal(p, op) && op.Index?
    modifies m, m.arrEntries, m.mapEntries.Values
    ensures result == PlainResult(p, op, m.default)
    ensures |c.slots| > 0 && Agrees(m, pointers', PlainNext(p, op, m.default), CacheNext(c, m.hashFunc, p.entries, op))
    ensures fresh(m.mapEntries.Values - old(m.mapEntries.Values))
  {
    WrapNext(c.misses);
    var r := m.Index(op.key, op.oom);
    result := if r == null then Threw else Value(r.value);
    pointers' := pointers + [r];
  }

  method StepWrite<K, V>(m: LldkUnorderedMap<K, V>, op: Op<K, V>, pointers: seq<Node?<K, V>>,
    ghost p: Plain<K, V>, ghost c: Cache<K>)
    returns (result: Result<V>, pointers': seq<Node?<K, V>>)
    requires Agrees(m, pointers, p, c) && Legal(p, op) && op.Write?
    modifies m, m.arrEntries, m.mapEntries.Values
    ensures result == PlainResult(p, op, m.default)
    ensures |c.slots| > 0 && Agrees(m, pointers', PlainNext(p, op, m.default), CacheNext(c, m.hashFunc, p.entries, op))
    ensures fresh(m.mapEntries.Values - old(m.mapEntries.Values))
  {
    pointers[op.handle].value := op.value;
    result := Nothing;
    pointers' := pointers;
  }

  method StepRead<K, V>(m: LldkUnorderedMap<K, V>, op: Op<K, V>, pointers: seq<Node?<K, V>>,
    ghost p: Plain<K, V>, ghost c: Cache<K>)
    returns (result: Result<V>, pointers': seq<Node?<K, V>>)
    requires Agrees(m, pointers, p, c) && Legal(p, op) && op.Read?
    modifies m, m.arrEntries, m.mapEntries.Values
    ensures result == PlainResult(p, op, m.default)
    ensures |c.slots| > 0 && Agrees(m, pointers', PlainNext(p, op, m.default), CacheNext(c, m.hashFunc, p.entries, op))
    ensures fresh(m.mapEntries.Values - old(m.mapEntries.Values))
  {
    result := Value(pointers[op.handle].value);
    pointers' := pointers;
  }

  method Step<K, V>(m: LldkUnorderedMap<K, V>, op: Op<K, V>, pointers: seq<Node?<K, V>>,
    ghost p: Plain<K, V>, ghost c: Cache<K>)
    returns (result: Result<V>, pointers': seq<Node?<K, V>>)
    requires Agrees(m, pointers, p, c) && Legal(p, op)
    modifies m, m.arrEntries, m.mapEntries.Values
    ensures result == PlainResult(p, op, m.default)
    ensures |c.slots| > 0 && Agrees(m, pointers', PlainNext(p, op, m.default), CacheNext(c, m.hashFunc, p.entries, op))
    ensures fresh(m.mapEntries.Values - old(m.mapEntries.Values))
  {
    match op {
      case Insert(_, _, _) => result, pointers' := StepInsert(m, op, pointers, p, c);
      case Erase(_) => result, pointers' := StepErase(m, op, pointers, p, c);
      case Find(_) => result, pointers' := StepFind(m, op, pointers, p, c);
      case Contains(_) => result, pointers' := StepContains(m, op, pointers, p, c);
      case Clear => result, pointers' := StepClear(m, op, pointers, p, c);
      case Index(_, _) => result, pointers' := StepIndex(m, op, pointers, p, c);
      case Write(_, _) => result, pointers' := StepWrite(m, op, pointers, p, c);
      case Read(_) => result, pointers' := StepRead(m, op, pointers, p, c);
    }
  }

  /** A legal trace from any state: the plain map's answers, and the miss counter of the cache of keys. */
  method ReplayFrom<K, V>(m: LldkUnorderedMap<K, V>, ops: seq<Op<K, V>>, pointers: seq<Node?<K, V>>,
    ghost p: Plain<K, V>, ghost c: Cache<K>)
    returns (results: seq<Result<V>>)
    requires Agrees(m, pointers, p, c) && LegalRun(p, ops, m.default)
    modifies m, m.arrEntries, m.mapEntries.Values
    ensures results == PlainRun(p, ops, m.default)
    ensures |c.slots| > 0 && m.cachemissCount == Wrap(CacheRun(c, m.hashFunc, p, ops, m.default).misses)
    decreases |ops|
  {
    if ops == [] {
      return [];
    }
    var result, pointers' := Step(m, ops[0], pointers, p, c);
    var rest := ReplayFrom(m, ops[1..], pointers', PlainNext(p, ops[0], m.default), CacheNext(c, m.hashFunc, p.entries, ops[0]));
    results := [result] + rest;
  }

  /** Any legal trace on a new map gives the plain map's answers, and its miss counter is the one of the cache of keys
      (as a `uint64_t`). */
  method Replay<K(==), V>(hashFunc: K -> nat, default: V, cacheSize: nat, ops: seq<Op<K, V>>)
    returns (results: seq<Result<V>>, misses: int)
    requires cacheSize > 0 && LegalRun(Plain(map[], []), ops, default)
    ensures results == PlainRun(Plain(map[], []), ops, default)
    ensures misses == Wrap(CacheRun(Cache(seq(cacheSize, _ => None), 0), hashFunc, Plain(map[], []), ops, default).misses)
  {
    var m := new LldkUnorderedMap(hashFunc, default, cacheSize);
    assert m.Entries() == map[];
    results := ReplayFrom(m, ops, [], Plain(map[], []), Cache(seq(cacheSize, _ => None), 0));
    misses := m.cachemissCount;
  }
}
