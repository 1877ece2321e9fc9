// LldkUnorderedMap: std::unordered_map behind a direct-mapped array of node pointers
// (src/utilities/lldk_unordered_map.h).
module UnorderedMap {
  import opened CacheTrace
  import opened Basics
  import opened Sums

  /** An element of the map. Its key is constant and, by section 23.2.5 of ISO/IEC 14882:2011, its address survives
      rehashing; a pointer to a value is modelled as a pointer to its element. */
  class Node<K, V> {
    const key: K
    var value: V

    constructor (key: K, value: V)
      ensures this.key == key && this.value == value
    {
      this.key := key;
      this.value := value;
    }
  }

  class LldkUnorderedMap<K(==), V> {
    const hashFunc: K -> nat
    const default: V
    const arrEntries: array<Node?<K, V>>
    var cachemissCount: int
    var mapEntries: map<K, Node<K, V>>

    ghost predicate Valid()
      reads this, arrEntries
    {
      && arrEntries.Length > 0
      && 0 <= cachemissCount < WORD
      && (forall k :: k in mapEntries ==> mapEntries[k].key == k)
      // a slot is null or points at an element of the map whose hash is the slot's index
      && (forall i {:trigger arrEntries[i]} :: 0 <= i < arrEntries.Length && arrEntries[i] != null ==>
            var k := arrEntries[i].key; k in mapEntries && mapEntries[k] == arrEntries[i] && SlotOf(hashFunc, arrEntries.Length, k) == i)
    }

    /** The map's contents. */
    ghost function Entries(): map<K, V>
      reads this, mapEntries.Values
    {
      map k | k in mapEntries :: mapEntries[k].value
    }

    /** The keys cached in the slots. */
    ghost function Slots(): seq<Option<K>>
      reads arrEntries
    {
      seq(arrEntries.Length, i requires 0 <= i < arrEntries.Length reads arrEntries =>
        if arrEntries[i] == null then None else Some(arrEntries[i].key))
    }

    constructor (hashFunc: K -> nat, default: V, cacheSize: nat)
      requires cacheSize > 0
      ensures Valid() && fresh(arrEntries)
      ensures this.hashFunc == hashFunc && this.default == default && arrEntries.Length == cacheSize
      ensures mapEntries == map[] && cachemissCount == 0
      ensures Slots() == seq(cacheSize, _ => None)
    {
      this.hashFunc := hashFunc;
      this.default := default;
      arrEntries := new Node?<K, V>[cacheSize](_ => null);
      cachemissCount := 0;
      mapEntries := map[];
    }

    method Insert(key: K, value: V, oom: bool) returns (ok: bool)
      requires Valid()
      modifies this`mapEntries, arrEntries
      ensures Valid()
      ensures ok == (key !in old(mapEntries) && !oom)
      ensures !ok ==> mapEntries == old(mapEntries) && Slots() == old(Slots())
      ensures ok ==>
        && key in mapEntries && fresh(mapEntries[key]) && mapEntries[key].value == value
        && mapEntries == old(mapEntries)[key := mapEntries[key]]
        && Slots() == old(Slots())[SlotOf(hashFunc, arrEntries.Length, key) := Some(key)]
    {
      if oom || key in mapEntries {
        return false;
      }
      var node := new Node(key, value);
      mapEntries := mapEntries[key := node];
      arrEntries[SlotOf(hashFunc, arrEntries.Length, key)] := node;
      return true;
    }

    /** The unlinked element's key is still compared afterwards. */
    method Erase(key: K)
      requires Valid()
      modifies this`mapEntries, arrEntries
      ensures Valid()
      ensures mapEntries == old(mapEntries) - {key}
      ensures
        var i := SlotOf(hashFunc, arrEntries.Length, key);
        Slots() == if old(Slots())[i] == Some(key) then old(Slots())[i := None] else old(Slots())
    {
      mapEntries := mapEntries - {key};
      var i := SlotOf(hashFunc, arrEntries.Length, key);
      if arrEntries[i] != null && arrEntries[i].key == key {
        arrEntries[i] := null;
      }
    }

    method Find(key: K) returns (r: Node?<K, V>)
      requires Valid()
      modifies this`cachemissCount, arrEntries
      ensures Valid()
      ensures r == if key in mapEntries then mapEntries[key] else null
      ensures
        var i := SlotOf(hashFunc, arrEntries.Length, key);
        var hit := old(Slots())[i] == Some(key);
        && cachemissCount == (if hit then old(cachemissCount) else Wrap(old(cachemissCount) + 1))
        && Slots() == if !hit && key in mapEntries then old(Slots())[i := Some(key)] else old(Slots())
    {
      var i := SlotOf(hashFunc, arrEntries.Length, key);
      if arrEntries[i] != null && arrEntries[i].key == key {
        return arrEntries[i];
      }
      cachemissCount := (cachemissCount + 1) % WORD;
      if key in mapEntries {
        arrEntries[i] := mapEntries[key];
        return arrEntries[i];
      }
      return null;
    }

    method Contains(key: K) returns (b: bool)
      requires Valid()
      modifies this`cachemissCount, arrEntries
      ensures Valid()
      ensures b == (key in mapEntries)
      ensures
        var i := SlotOf(hashFunc, arrEntries.Length, key);
        var hit := old(Slots())[i] == Some(key);
        && cachemissCount == (if hit then old(cachemissCount) else Wrap(old(cachemissCount) + 1))
        && Slots() == if !hit && key in mapEntries then old(Slots())[i := Some(key)] else old(Slots())
    {
      var r := Find(key);
      return r != null;
    }

    method Clear()
      requires Valid()
      modifies this`mapEntries, arrEntries
      ensures Valid()
      ensures mapEntries == map[] && Slots() == seq(arrEntries.Length, _ => None)
    {
      forall i | 0 <= i < arrEntries.Length {
        arrEntries[i] := null;
      }
      mapEntries := map[];
    }

    /** operator[]; null stands for the exception of a failed allocation. The error it could throw itself, for a key
        that find missed and insert then found, does not arise. */
    method Index(key: K, oom: bool) returns (r: Node?<K, V>)
      requires Valid()
      modifies this`cachemissCount, this`mapEntries, arrEntries
      ensures Valid()
      ensures r == null <==> key !in old(mapEntries) && oom
      ensures key in old(mapEntries) || oom ==> mapEntries == old(mapEntries)
      ensures r != null ==> key in mapEntries && r == mapEntries[key]
      ensures key !in old(mapEntries) && !oom ==>
        fresh(r) && r.value == default && mapEntries == old(mapEntries)[key := r]
      ensures
        var i := SlotOf(hashFunc, arrEntries.Length, key);
        var hit := old(Slots())[i] == Some(key);
        && cachemissCount == (if hit then old(cachemissCount) else Wrap(old(cachemissCount) + 1))
        && Slots() == if !hit && key in mapEntries then old(Slots())[i := Some(key)] else old(Slots())
    {
      r := Find(key);
      if r != null {
        return r;
      }
      if oom {
        return null;
      }
      var ok := Insert(key, default, false);
      assert ok;
      r := mapEntries[key];
    }
  }
}
