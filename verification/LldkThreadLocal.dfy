// LldkThreadLocal<T>, one call at a time (src/utilities/lldk_thread_local.h:75-175), on the registry and the global
// allocator. `T()` does not throw. Protocol.dfy has the same calls under any interleaving.
module LldkThreadLocal {
  import opened Words
  import opened Bitset
  import opened Basics
  import opened Sums
  import opened Protocol
  import opened ThreadLocal

  /** The id newInstanceId would give out. */
  ghost function FreeId(ids: set<nat>): nat {
    LeastFree(ids, MAX_INSTANCE_ID)
  }

  /** The storage and, unless `q` is NULL, a table. */
  ghost function NewBlocks(blocks: map<Ptr, nat>, p: Ptr, size: nat, q: Ptr): map<Ptr, nat> {
    if q == NULL then blocks[p := size] else blocks[p := size][q := TABLE_BYTES]
  }

  lemma DropBack(m: map<Ptr, nat>, p: Ptr, size: nat)
    requires p !in m
    ensures m[p := size] - {p} == m
  {
  }

  class LldkThreadLocal {
    const base: Registry<Ptr>
    var instanceId: uint32

    constructor (base: Registry<Ptr>)
      ensures this.base == base && instanceId == INVALID_ID
    {
      this.base := base;
      instanceId := INVALID_ID;
    }

    /** The body of the source's constructor, which throws where this returns false. `size` is sizeof(T), `p` is
        malloc's result for the storage, `q` and `pushes` are as for Registry.AddTable. */
    method Construct(t: Tid, size: nat, p: Ptr, q: Ptr, pushes: bool) returns (ok: bool)
      requires base.Valid() && base.heap.Valid() && size + 8 < WORD
      requires p !in base.heap.blocks && q !in base.heap.blocks && (p == q ==> p == NULL)
      modifies this, base, base.vec, base.heap, base.bits.bits
      ensures base.Valid() && base.heap.Valid()
      ensures ok <==> FreeId(old(base.Ids())) < MAX_INSTANCE_ID && p != NULL && (t in old(base.tables) || (q != NULL && pushes))
      ensures ok ==> instanceId as nat == FreeId(old(base.Ids())) && base.Ids() == old(base.Ids()) + {instanceId as nat}
      ensures ok ==> base.Rows() == old(base.Rows())[t := Row(old(base.Rows()), t)[instanceId := Some(p)]]
      ensures ok ==> base.heap.blocks == NewBlocks(old(base.heap.blocks), p, size, if t in old(base.tables) then NULL else q)
      ensures ok && t !in old(base.tables) ==> base.heap.blocks[q] == 8 * |base.Rows()[t]| == 8 * 2048
      ensures !ok ==> base.Rows() == old(base.Rows()) && base.heap.blocks == old(base.heap.blocks)
      // the id is returned, unless it was the storage that could not be allocated
      ensures !ok ==>
        base.Ids() == old(base.Ids()) + if p == NULL && FreeId(old(base.Ids())) < MAX_INSTANCE_ID then {FreeId(old(base.Ids()))} else {}
    {
      var storage := TakeIdAndStorage(size, p);
      if storage == NULL {
        return false;
      }
      ok := StoreOrGiveUp(t, storage, q, pushes);
      if !ok {
        DropBack(old(base.heap.blocks), p, size);
      }
    }

    /** The constructor's first two steps: NULL when either fails. */
    method TakeIdAndStorage(size: nat, p: Ptr) returns (storage: Ptr)
      requires base.Valid() && base.heap.Valid() && size + 8 < WORD && p !in base.heap.blocks
      modifies this, base.heap, base.bits.bits
      ensures base.Valid() && base.heap.Valid() && base.Rows() == old(base.Rows())
      ensures instanceId as nat == FreeId(old(base.Ids())) <= MAX_INSTANCE_ID
      ensures instanceId != INVALID_ID ==> instanceId as nat !in old(base.Ids())
      ensures storage == if instanceId == INVALID_ID then NULL else p
      ensures base.Ids() == if instanceId == INVALID_ID then old(base.Ids()) else old(base.Ids()) + {instanceId as nat}
      ensures base.heap.blocks == if storage == NULL then old(base.heap.blocks) else old(base.heap.blocks)[p := size]
    {
      TakeId();
      if instanceId == INVALID_ID {
        return NULL;
      }
      storage := base.Allocate(size, p);
    }

    method TakeId()
      requires base.Valid() && base.heap.Valid()
      modifies this, base.bits.bits
      ensures base.Valid() && base.heap.Valid() && base.Rows() == old(base.Rows()) && base.heap.blocks == old(base.heap.blocks)
      ensures instanceId as nat == FreeId(old(base.Ids())) <= MAX_INSTANCE_ID
      ensures instanceId != INVALID_ID ==> instanceId as nat !in old(base.Ids())
      ensures base.Ids() == if instanceId == INVALID_ID then old(base.Ids()) else old(base.Ids()) + {instanceId as nat}
    {
      instanceId := base.NewInstanceId();
    }

    /** The constructor's last step: if the store fails, the storage and the id are given back. */
    method StoreOrGiveUp(t: Tid, storage: Ptr, q: Ptr, pushes: bool) returns (ok: bool)
      requires base.Valid() && base.heap.Valid() && instanceId < INVALID_ID
      requires storage in base.heap.blocks && q !in base.heap.blocks
      modifies this, base, base.vec, base.heap, base.bits.bits
      ensures base.Valid() && base.heap.Valid()
      ensures instanceId == if ok then old(instanceId) else INVALID_ID
      ensures ok <==> t in old(base.tables) || (q != NULL && pushes)
      ensures base.Ids() == if ok then old(base.Ids()) else old(base.Ids()) - {old(instanceId) as nat}
      ensures base.Rows() == if ok then old(base.Rows())[t := Row(old(base.Rows()), t)[old(instanceId) := Some(storage)]] else old(base.Rows())
      ensures base.heap.blocks ==
        if !ok then old(base.heap.blocks) - {storage}
        else if t in old(base.tables) then old(base.heap.blocks) else old(base.heap.blocks)[q := TABLE_BYTES]
    {
      var rc := base.SetThreadLocalStorage(t, instanceId, Some(storage), q, pushes);
      if rc != 0 {
        base.Free(storage);
        base.DeleteInstanceId(instanceId);
        instanceId := INVALID_ID;
      }
      return rc == 0;
    }

    /** The destructor, on a thread that has a table. The slot keeps its pointer: clearing it is rejected. */
    method Destroy(t: Tid)
      requires base.Valid() && base.heap.Valid() && instanceId < INVALID_ID && t in base.tables
      requires base.Rows()[t][instanceId].Some? ==> base.Rows()[t][instanceId].value in base.heap.blocks
      modifies this, base, base.vec, base.heap, base.bits.bits
      ensures base.Valid() && base.heap.Valid() && instanceId == INVALID_ID
      ensures base.Ids() == old(base.Ids()) - {old(instanceId) as nat}
      ensures base.Rows() == old(base.Rows())
      ensures base.heap.blocks == match old(base.Rows())[t][old(instanceId)]
        case Some(p) => old(base.heap.blocks) - {p}
        case None => old(base.heap.blocks)
    {
      ReleaseStorage(t);
      base.DeleteInstanceId(instanceId);
      instanceId := INVALID_ID;
    }

    method ReleaseStorage(t: Tid)
      requires base.Valid() && base.heap.Valid() && instanceId < INVALID_ID && t in base.tables
      requires base.Rows()[t][instanceId].Some? ==> base.Rows()[t][instanceId].value in base.heap.blocks
      modifies base, base.vec, base.heap
      ensures base.Valid() && base.heap.Valid() && base.Rows() == old(base.Rows()) && base.Ids() == old(base.Ids())
      ensures base.heap.blocks == match old(base.Rows())[t][instanceId]
        case Some(p) => old(base.heap.blocks) - {p}
        case None => old(base.heap.blocks)
    {
      var storage := base.GetThreadLocalStorage(t, instanceId);
      if storage.Some? {
        base.Free(storage.value);
        assert base.Rows() == old(base.Rows());
        StoreNull(t);
      }
    }

    /** The destructor's clearing call, which is rejected. */
    method StoreNull(t: Tid)
      requires base.Valid() && base.heap.Valid() && instanceId < INVALID_ID
      modifies base, base.vec, base.heap
      ensures base.Valid() && base.heap.Valid() && base.Rows() == old(base.Rows()) && base.Ids() == old(base.Ids())
      ensures base.heap.blocks == old(base.heap.blocks)
    {
      var rc := base.SetThreadLocalStorage(t, instanceId, None, NULL, false);
    }

    method Get(t: Tid) returns (r: Option<Ptr>)
      requires base.Valid() && instanceId < INVALID_ID && t in base.tables
      ensures r == base.Rows()[t][instanceId]
    {
      r := base.GetThreadLocalStorage(t, instanceId);
    }

    /** -1 when there is no function or a callback answers otherwise than 0, although the comment in the source says 0. */
    method Foreach(func: Option<Ptr -> int>) returns (rc: int, visited: seq<Ptr>)
      requires base.Valid() && instanceId <= INVALID_ID
      ensures rc == 0 || rc == -1
      ensures instanceId == INVALID_ID || func == None ==> rc == -1 && visited == []
      ensures instanceId < INVALID_ID && func.Some? ==> (rc == 0 <==> AllZero(func.value, Filled(base.SlotsOf(instanceId as nat))))
      ensures rc == 0 ==> visited == Filled(base.SlotsOf(instanceId as nat))
      ensures instanceId < INVALID_ID ==> visited <= Filled(base.SlotsOf(instanceId as nat))
      ensures instanceId < INVALID_ID && func.Some? && rc != 0 ==>
        visited != [] && func.value(visited[|visited| - 1]) != 0 && AllZero(func.value, visited[..|visited| - 1])
    {
      if instanceId != INVALID_ID && func.Some? {
        rc, visited := base.Foreach(instanceId, func);
      } else {
        return -1, [];
      }
    }
  }
}
