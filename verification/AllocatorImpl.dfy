// AllocatorImpl, one call at a time (src/base/allocator_impl.cpp:18-146), with its statistics in a slot of the
// thread-local registry. AllocatorModel.dfy has the same calls under any interleaving.
//
// What malloc and realloc return is a parameter: an address that is not in use, or NULL, and the block's bytes.
module AllocatorImpl {
  import opened Words
  import opened Sums
  import opened Basics
  import opened ThreadLocal
  import Model = AllocatorModel

  class StatsCell {
    var stats: Model.Stats
    constructor ()
      ensures stats == Model.Stats(0, 0, 0, 0)
    { stats := Model.Stats(0, 0, 0, 0); }
  }

  class CountCell {
    var value: uint32
    constructor (n: uint32)
      ensures value == n
    { value := n; }
  }

  /** A header holds the size of its block. */
  ghost predicate ValidBlocks(heap: map<Ptr, Model.Block>) {
    forall p :: p in heap ==> p != NULL && heap[p].header == |heap[p].body| && heap[p].header + 8 < WORD
  }

  class AllocatorImpl {
    const local: Registry<StatsCell> // m_allocatorThreadLocal, and the id it holds
    const id: uint32
    var heap: map<Ptr, Model.Block>

    ghost predicate Valid()
      reads this, local, local.vec
    {
      ValidSlots() && ValidBlocks(heap)
    }

    /** No two threads have the same statistics. */
    ghost predicate ValidSlots()
      reads local, local.vec
    {
      && local.Valid() && id < INVALID_ID
      && (forall t, u :: t in local.tables && u in local.tables && t != u && HasSlot(t) && HasSlot(u) ==> Cell(t) != Cell(u))
    }

    ghost predicate HasSlot(t: Tid)
      requires t in local.tables && local.Valid() && id < INVALID_ID
      reads local, local.vec
    {
      local.Slot(t, id as nat).Some?
    }

    ghost function Cell(t: Tid): StatsCell
      requires t in local.tables && local.Valid() && id < INVALID_ID && HasSlot(t)
      reads local, local.vec
    {
      local.Slot(t, id as nat).value
    }

    ghost function CellOf(t: Tid): set<StatsCell>
      requires t in local.tables && local.Valid() && id < INVALID_ID
      reads local, local.vec
    {
      if HasSlot(t) then {Cell(t)} else {}
    }

    /** The statistics of the threads that have a slot. */
    ghost function Stats(): map<Tid, Model.Stats>
      requires ValidSlots()
      reads local, local.vec, set t | t in local.tables && HasSlot(t) :: Cell(t)
    {
      map t | t in local.tables && HasSlot(t) :: Cell(t).stats
    }

    /** The id's slots hold different statistics for different threads. */
    constructor (local: Registry<StatsCell>, id: uint32)
      requires local.Valid() && id < INVALID_ID
      requires forall t, u :: t in local.tables && u in local.tables && t != u ==>
        local.Slot(t, id as nat) == None || local.Slot(t, id as nat) != local.Slot(u, id as nat)
      ensures Valid() && this.local == local && this.id == id && heap == map[]
    {
      this.local := local;
      this.id := id;
      heap := map[];
    }

    /** Counts on the calling thread's statistics, if it has any. */
    method AddAllocated(t: Tid, size: nat)
      requires ValidSlots() && t in local.tables
      modifies CellOf(t)
      ensures ValidSlots() && Stats() == Model.CountIn(old(Stats()), t, size)
    {
      var stats := local.GetThreadLocalStorage(t, id);
      if stats.Some? {
        stats.value.stats := Model.Allocated(stats.value.stats, size);
      }
    }

    method AddFreed(t: Tid, size: nat)
      requires ValidSlots() && t in local.tables
      modifies CellOf(t)
      ensures ValidSlots() && Stats() == Model.CountOut(old(Stats()), t, size)
    {
      var stats := local.GetThreadLocalStorage(t, id);
      if stats.Some? {
        stats.value.stats := Model.Freed(stats.value.stats, size);
      }
    }

    method AddBoth(t: Tid, oldSize: nat, size: nat)
      requires ValidSlots() && t in local.tables
      modifies CellOf(t)
      ensures ValidSlots() && Stats() == Model.CountIn(Model.CountOut(old(Stats()), t, oldSize), t, size)
      ensures t in Stats() ==>
        var v := old(Stats())[t];
        Stats()[t] == Model.Stats(Wrap(v.allocatedSize + size), Wrap(v.allocatedCount + 1), Wrap(v.freedSize + oldSize), Wrap(v.freedCount + 1))
    {
      AddFreed(t, oldSize);
      AddAllocated(t, size);
    }

    /** `p` and `body` are malloc's result. The thread must have a table. */
    method Allocate(t: Tid, size: nat, p: Ptr, body: seq<bv8>) returns (r: Ptr)
      requires Valid() && t in local.tables && size + 8 < WORD
      requires p != NULL ==> p !in heap && |body| == size
      modifies this`heap, CellOf(t)
      ensures Valid() && r == p
      ensures p == NULL ==> heap == old(heap) && Stats() == old(Stats())
      ensures p != NULL ==> heap == old(heap)[p := Model.Block(size, body)]
      ensures p != NULL ==> Stats() == Model.CountIn(old(Stats()), t, size)
      ensures p != NULL && t in Stats() ==>
        var v := old(Stats())[t];
        Stats()[t] == Model.Stats(Wrap(v.allocatedSize + size), Wrap(v.allocatedCount + 1), v.freedSize, v.freedCount)
    {
      if p == NULL {
        return NULL;
      }
      heap := heap[p := Model.Block(size, body)];
      AddAllocated(t, size);
      return p;
    }

    method Free(t: Tid, p: Ptr)
      requires Valid() && t in local.tables
      requires p != NULL ==> p in heap
      modifies this`heap, CellOf(t)
      ensures Valid()
      ensures p == NULL ==> heap == old(heap) && Stats() == old(Stats())
      ensures p != NULL ==> heap == old(heap) - {p} && Stats() == Model.CountOut(old(Stats()), t, |old(heap)[p].body|)
      ensures p != NULL && t in Stats() ==>
        var v := old(Stats())[t];
        Stats()[t] == Model.Stats(v.allocatedSize, v.allocatedCount, Wrap(v.freedSize + |old(heap)[p].body|), Wrap(v.freedCount + 1))
    {
      if p == NULL {
        return;
      }
      var size := heap[p].header;
      AddFreed(t, size);
      heap := heap - {p};
    }

    /** `q` and `body` are realloc's result, or malloc's when `p` is NULL. */
    method ReAllocate(t: Tid, p: Ptr, size: nat, q: Ptr, body: seq<bv8>) returns (r: Ptr)
      requires Valid() && t in local.tables && size + 8 < WORD
      requires p != NULL ==> p in heap
      requires q != NULL ==> (q == p || q !in heap) && |body| == size
      requires q != NULL && p != NULL ==> Model.Resized(heap[p].body, size, body)
      modifies this`heap, CellOf(t)
      ensures Valid() && r == q
      ensures q == NULL ==> heap == old(heap) && Stats() == old(Stats())
      ensures q != NULL ==> heap == (old(heap) - {p})[q := Model.Block(size, body)]
      ensures q != NULL && p == NULL ==> Stats() == Model.CountIn(old(Stats()), t, size)
      ensures q != NULL && p != NULL ==>
        Stats() == Model.CountIn(Model.CountOut(old(Stats()), t, |old(heap)[p].body|), t, size)
      ensures q != NULL && t in Stats() ==>
        var v := old(Stats())[t];
        Stats()[t] == if p == NULL
          then Model.Stats(Wrap(v.allocatedSize + size), Wrap(v.allocatedCount + 1), v.freedSize, v.freedCount)
          else Model.Stats(Wrap(v.allocatedSize + size), Wrap(v.allocatedCount + 1),
                           Wrap(v.freedSize + |old(heap)[p].body|), Wrap(v.freedCount + 1))
    {
      if p == NULL {
        r := Allocate(t, size, q, body);
        return r;
      }
      var oldSize := heap[p].header;
      if q == NULL {
        return NULL;
      }
      heap := (heap - {p})[q := Model.Block(size, body)];
      AddBoth(t, oldSize, size);
      return q;
    }

    /** Copies as many statistics as there is room for, in the order the threads' tables were registered. */
    method GetAllocateStats(out: array?<Model.Stats>, threads: CountCell?) returns (rc: int)
      requires Valid()
      requires out != null && threads != null ==> threads.value as int <= out.Length
      modifies out, threads
      ensures rc == if out == null || threads == null then -1 else 0
      ensures out != null && threads == null ==> out[..] == old(out[..])
      ensures out == null && threads != null ==> threads.value == old(threads.value)
      ensures rc == 0 ==> threads.value as nat == if |Stats()| < old(threads.value) as nat then |Stats()| else old(threads.value) as nat
      ensures rc == 0 ==> |Stats()| == |Filled(local.SlotsOf(id as nat))|
      ensures rc == 0 ==> forall i :: 0 <= i < threads.value as nat ==> out[i] == Filled(local.SlotsOf(id as nat))[i].stats
      ensures rc == 0 ==> out[threads.value as nat..] == old(out[..])[threads.value as nat..]
    {
      if out == null || threads == null {
        return -1;
      }
      var _, visited := local.Foreach(id, Some(_ => 0));
      var count := CopyWhileRoom(visited, out, threads.value);
      threads.value := count;
      assert visited == Filled(local.SlotsOf(id as nat));
      CountSlots();
      return 0;
    }

    /** The callback of getAllocateStats, on each slot `foreach` visits: the walk goes on when there is no room left. */
    method CopyWhileRoom(visited: seq<StatsCell>, out: array<Model.Stats>, max: uint32) returns (count: uint32)
      requires max as int <= out.Length
      modifies out
      ensures count as nat == if |visited| < max as nat then |visited| else max as nat
      ensures forall i :: 0 <= i < count as nat ==> out[i] == visited[i].stats
      ensures out[count as nat..] == old(out[..])[count as nat..]
    {
      count := 0;
      var i := 0;
      while i < |visited|
        invariant i <= |visited|
        invariant count as nat == if i < max as nat then i else max as nat
        invariant forall j :: 0 <= j < count as nat ==> out[j] == visited[j].stats
        invariant forall j :: count as nat <= j < out.Length ==> out[j] == old(out[j])
      {
        if count < max {
          out[count] := visited[i].stats;
          count := count + 1;
        }
        i := i + 1;
      }
    }

    /** Walking the vector finds as many slots as there are threads that have one. */
    lemma CountSlots()
      requires ValidSlots()
      ensures |Filled(local.SlotsOf(id as nat))| == |Stats()|
    {
      var slots := local.SlotsOf(id as nat);
      CountOwners(slots, local.owners);
      assert Owners(slots, local.owners) == Stats().Keys;
    }
  }

  /** The threads whose slots are filled. */
  ghost function Owners<S>(slots: seq<Option<S>>, owners: seq<Tid>): set<Tid>
    requires |slots| == |owners|
  {
    set i | 0 <= i < |slots| && slots[i].Some? :: owners[i]
  }

  lemma {:induction false} CountOwners<S>(slots: seq<Option<S>>, owners: seq<Tid>)
    requires |slots| == |owners| && forall i, j :: 0 <= i < j < |owners| ==> owners[i] != owners[j]
    ensures |Owners(slots, owners)| == |Filled(slots)|
  {
    if slots != [] {
      CountOwners(slots[1..], owners[1..]);
      var rest := Owners(slots[1..], owners[1..]);
      var all := Owners(slots, owners);
      assert forall i :: 1 <= i < |slots| ==> slots[i] == slots[1..][i - 1] && owners[i] == owners[1..][i - 1];
      assert owners[0] !in rest;
      assert all == rest + if slots[0].Some? then {owners[0]} else {};
    }
  }
}
