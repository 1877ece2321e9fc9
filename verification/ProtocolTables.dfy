// The steps of the registry protocol that change the tables, the vector, the objects or the callers' blocks.
module ProtocolTables {
  import opened Bitset
  import opened Sums
  import opened Protocol
  import opened Basics
  import opened ProtocolInvariant
  import opened ProtocolSteps

  lemma OthersKept(s: State, s': State, t: Tid)
    requires ThreadsOk(s) && s'.pc.Keys == s.pc.Keys && t in s.pc && ThreadOk(s', t) && SlotsPersist(s, s')
    requires forall u :: u in s.pc && u != t ==> Untouched(s, s', u)
    ensures ThreadsOk(s')
  {
    forall u | u in s.pc && u != t ensures ThreadOk(s', u) {
      ThreadKept(s, s', u);
    }
  }

  // ---------------------------------------------------------------------------------------------
  // Steps of a thread whose table is not registered
  // ---------------------------------------------------------------------------------------------

  ghost predicate UnregisteredStep(s: State, s': State, t: Tid) {
    && t in s.pc && s'.pc.Keys == s.pc.Keys && (forall u :: u in s.pc && u != t ==> s'.pc[u] == s.pc[u])
    && s'.vec == s.vec && s'.objects == s.objects && s'.raw == s.raw && s'.stored == s.stored
    && s'.ids == s.ids && s'.lock == s.lock && s.lock != Some(t)
    && (forall u :: u != t ==> (u in s'.table <==> u in s.table))
    && (forall u :: u != t && u in s.table ==> s'.table[u] == s.table[u])
    && (forall p :: p in s.heap && !Mine(s.heap[p].owner, t) ==> p in s'.heap && s'.heap[p] == s.heap[p])
    && (forall p :: p in s.heap && p in s.slots && s.heap[p].owner != TableOf(t) ==> p in s'.slots && s'.slots[p] == s.slots[p])
    && !Registered(s, t) && !Registered(s', t)
    && (t in s'.table ==> s'.table[t] in s'.heap && s'.heap[s'.table[t]].owner == TableOf(t))
    && NULL !in s'.heap
  }

  lemma UnregisteredTables(s: State, s': State, t: Tid)
    requires TablesOk(s) && VecOk(s) && UnregisteredStep(s, s', t)
    ensures TablesOk(s') && VecOk(s')
    ensures forall u :: Registered(s', u) <==> Registered(s, u)
  {
    forall u | u in s'.table ensures TableOk(s', u) {
      if u != t {
        assert TableOk(s, u);
      }
    }
    forall i | 0 <= i < |s'.vec| ensures Listed(s', s'.vec[i]) {
      assert Listed(s, s.vec[i]);
    }
  }

  lemma UnregisteredSlots(s: State, s': State, t: Tid, u: Tid, id: nat)
    requires TablesOk(s) && UnregisteredStep(s, s', t) && Registered(s, u)
    ensures Get(s', u, id) == Get(s, u, id)
  {
    assert TableOk(s, u);
  }

  lemma UnregisteredPersist(s: State, s': State, t: Tid)
    requires TablesOk(s) && VecOk(s) && UnregisteredStep(s, s', t)
    ensures SlotsPersist(s, s')
  {
    forall q, id: nat | q in s.vec && SlotAt(s, q, id) != NULL ensures SlotAt(s', q, id) != NULL {
      assert Listed(s, q);
    }
  }

  lemma UnregisteredUntouched(s: State, s': State, t: Tid, u: Tid)
    requires TablesOk(s) && UnregisteredStep(s, s', t) && u in s.pc && u != t
    ensures Untouched(s, s', u)
  {
    if u in s.table {
      assert TableOk(s, u);
    }
  }

  lemma UnregisteredObjects(s: State, s': State, t: Tid)
    requires TablesOk(s) && VecOk(s) && ObjectsOk(s) && StoredOk(s) && UnregisteredStep(s, s', t)
    ensures ObjectsOk(s') && StoredOk(s')
  {
    UnregisteredTables(s, s', t);
    forall u, id: nat | Registered(s, u) ensures Get(s', u, id) == Get(s, u, id) {
      UnregisteredSlots(s, s', t, u, id);
    }
    forall n | n in s'.objects ensures ObjectOk(s', n) {
      assert ObjectOk(s, n);
    }
  }

  lemma UnregisteredShape(s: State, s': State, t: Tid)
    requires Shape(s) && UnregisteredStep(s, s', t)
    ensures Shape(s')
  {
    if s.lock.Some? {
      var u := s.lock.value;
      assert u in s'.pc.Keys;
      assert s'.pc[u] == s.pc[u];
    }
  }

  lemma UnregisteredStepKeeps(s: State, s': State, t: Tid)
    requires Structure(s) && UnregisteredStep(s, s', t) && ThreadOk(s', t)
    ensures Structure(s')
  {
    UnregisteredTables(s, s', t);
    UnregisteredPersist(s, s', t);
    UnregisteredObjects(s, s', t);
    forall u | u in s.pc && u != t ensures Untouched(s, s', u) {
      UnregisteredUntouched(s, s', t, u);
    }
    OthersKept(s, s', t);
    UnregisteredShape(s, s', t);
  }

  lemma CountTable(s: State, t: Tid)
    requires Here(s, t) && s.pc[t].Alloc? && s.pc[t].stage.CountIn? && s.pc[t].back.ToTable?
    requires AllocOk(s, t, s.pc[t].size, s.pc[t].stage, s.pc[t].back)
    ensures UnregisteredStep(s, DoCountAllocated(s, t), t) && ThreadOk(DoCountAllocated(s, t), t)
  {
    LockElsewhere(s, t);
  }

  lemma ZeroTableStep(s: State, t: Tid)
    requires Here(s, t) && s.pc[t].ZeroTable? && ThreadOk(s, t)
    ensures UnregisteredStep(s, DoZeroNewTable(s, t), t) && ThreadOk(DoZeroNewTable(s, t), t)
  {
    LockElsewhere(s, t);
  }

  lemma PushFails(s: State, t: Tid)
    requires Here(s, t) && s.pc[t].PushTable? && ThreadOk(s, t)
    ensures UnregisteredStep(s, DoPush(s, t, false), t) && ThreadOk(DoPush(s, t, false), t)
  {
    LockElsewhere(s, t);
    var pc := s.pc[t];
    assert FreeOk(DoPush(s, t, false), t, s.table[t], TABLE_BYTES, ReadHeader, FromRollback(pc.id, pc.p, pc.size));
  }

  lemma ReleaseTable(s: State, t: Tid)
    requires Here(s, t) && s.pc[t].Free? && s.pc[t].ret.FromRollback?
    requires FreeOk(s, t, s.pc[t].p, s.pc[t].want, CallFree, s.pc[t].ret)
    ensures UnregisteredStep(s, DoRelease(s, t), t) && ThreadOk(DoRelease(s, t), t)
  {
    LockElsewhere(s, t);
    var FromRollback(id, p, size) := s.pc[t].ret;
    assert FreeOk(DoRelease(s, t), t, p, size, ReadHeader, FromConstructor(id));
  }

  // ---------------------------------------------------------------------------------------------
  // Steps that hand a block over between a thread, an object and a direct caller
  // ---------------------------------------------------------------------------------------------

  predicate KeepsBlock(s: State, s': State, p: Ptr) {
    p in s.heap ==> p in s'.heap && s'.heap[p] == s.heap[p]
  }

  predicate KeepsId(s: State, s': State, id: nat) {
    id in s.ids ==> id in s'.ids && s'.ids[id] == s.ids[id]
  }

  ghost predicate HandOverFrame(s: State, s': State, t: Tid) {
    && t in s.pc && s'.pc.Keys == s.pc.Keys && (forall u :: u in s.pc && u != t ==> s'.pc[u] == s.pc[u])
    && s'.vec == s.vec && s'.table == s.table && s'.slots == s.slots && s'.stored == s.stored
    && s'.lock == s.lock && s.lock != Some(t)
    && (t in s.table ==> (Pending(s'.pc[t]) <==> Pending(s.pc[t])))
    && (forall n :: n in s'.objects ==> n in s.objects && s'.objects[n] == s.objects[n])
    && (forall n :: n in s.objects && n !in s'.objects ==> s.objects[n].owner == t)
    && (forall id :: id in s.ids && s.ids[id].HeldByThread? && s.ids[id].t != t ==> id in s'.ids && s'.ids[id] == s.ids[id])
    && (forall n :: n in s'.objects ==> KeepsId(s, s', s.objects[n].id))
    && Shape(s')
  }

  ghost predicate HandOverBlocks(s: State, s': State, t: Tid) {
    && (forall n :: n in s'.objects ==> n in s.objects)
    && (forall p :: p in s'.raw ==> p in s'.heap && s'.heap[p] == Block(Some(s'.raw[p]), true, ByCaller))
    && (forall p :: p in s.heap && s.heap[p].owner.TableOf? ==> KeepsBlock(s, s', p))
    && (forall p :: p in s.heap && s.heap[p].owner.ByThread? && s.heap[p].owner.t != t ==> KeepsBlock(s, s', p))
    && (forall n :: n in s'.objects ==> KeepsBlock(s, s', s.objects[n].block))
  }

  ghost predicate HandOver(s: State, s': State, t: Tid) {
    HandOverFrame(s, s', t) && HandOverBlocks(s, s', t)
  }

  lemma HandOverTables(s: State, s': State, t: Tid)
    requires TablesOk(s) && VecOk(s) && HandOver(s, s', t)
    ensures TablesOk(s') && VecOk(s')
    ensures forall u :: Registered(s', u) <==> Registered(s, u)
  {
    forall u | u in s'.table ensures TableOk(s', u) {
      assert TableOk(s, u);
      assert KeepsBlock(s, s', s.table[u]);
    }
    forall i | 0 <= i < |s'.vec| ensures Listed(s', s'.vec[i]) {
      assert Listed(s, s.vec[i]);
    }
  }

  lemma HandOverObjects(s: State, s': State, t: Tid)
    requires TablesOk(s) && VecOk(s) && ObjectsOk(s) && StoredOk(s) && HandOver(s, s', t)
    ensures ObjectsOk(s') && StoredOk(s')
  {
    HandOverTables(s, s', t);
    forall u: Tid, id: nat ensures Get(s', u, id) == Get(s, u, id) {
    }
    forall n | n in s'.objects ensures ObjectOk(s', n) {
      assert ObjectOk(s, n);
    }
  }

  lemma HandOverKeeps(s: State, s': State, t: Tid)
    requires Structure(s) && HandOver(s, s', t) && ThreadOk(s', t)
    ensures Structure(s')
  {
    HandOverTables(s, s', t);
    HandOverObjects(s, s', t);
    forall u | u in s.pc && u != t ensures Untouched(s, s', u) {
    }
    OthersKept(s, s', t);
  }

  /** Rewriting one block of the thread's own, or of a caller that no longer lists it, disturbs nobody. */
  lemma RewrittenBlock(s: State, s': State, t: Tid, p: Ptr, b: Block)
    requires ObjectsOk(s) && RawOk(s) && p in s.heap && s'.heap == s.heap[p := b] && s'.objects == s.objects
    requires s.heap[p].owner == ByThread(t) || s.heap[p].owner == ByCaller
    requires s'.raw == s.raw - {p} || (b.header.Some? && b.counted && b.owner == ByCaller && s'.raw == s.raw[p := b.header.value])
    ensures HandOverBlocks(s, s', t)
  {
    forall n | n in s.objects ensures KeepsBlock(s, s', s.objects[n].block) {
      assert ObjectOk(s, n);
    }
  }

  lemma CountForCaller(s: State, t: Tid)
    requires Here(s, t) && RawOk(s) && ObjectsOk(s) && s.pc[t].Alloc? && s.pc[t].stage.CountIn? && s.pc[t].back.ToCaller?
    requires AllocOk(s, t, s.pc[t].size, s.pc[t].stage, s.pc[t].back)
    ensures HandOver(s, DoCountAllocated(s, t), t) && ThreadOk(DoCountAllocated(s, t), t)
  {
    LockElsewhere(s, t);
    RewrittenBlock(s, DoCountAllocated(s, t), t, s.pc[t].stage.p, Block(Some(s.pc[t].size), true, ByCaller));
  }

  lemma FreeForCaller(s: State, t: Tid, p: Ptr)
    requires Here(s, t) && RawOk(s) && ObjectsOk(s) && Enabled(s, t, StartFree(p))
    ensures HandOver(s, Next(s, t, StartFree(p)), t) && ThreadOk(Next(s, t, StartFree(p)), t)
  {
    var s' := Next(s, t, StartFree(p));
    LockElsewhere(s, t);
    RewrittenBlock(s, s', t, p, s.heap[p].(owner := ByThread(t)));
    assert FreeOk(s', t, p, s.raw[p], ReadHeader, FromCaller);
  }

  /** The destructor finds its object's storage in the slot, never null. */
  lemma DestroyTakesBlock(s: State, t: Tid)
    requires Here(s, t) && RawOk(s) && ObjectsOk(s) && s.pc[t].ReadSlot? && ThreadOk(s, t)
    ensures Get(s, t, s.pc[t].id) == s.objects[s.pc[t].n].block != NULL
    ensures HandOver(s, DoLoadOwnSlot(s, t), t) && ThreadOk(DoLoadOwnSlot(s, t), t)
  {
    var ReadSlot(n, id) := s.pc[t];
    LockElsewhere(s, t);
    assert ObjectOk(s, n);
    var o := s.objects[n];
    assert FreeOk(DoLoadOwnSlot(s, t), t, o.block, o.size, ReadHeader, FromDestructor(id));
  }

  // ---------------------------------------------------------------------------------------------
  // push_back, and the store that completes a constructor
  // ---------------------------------------------------------------------------------------------

  lemma PushVec(s: State, t: Tid)
    requires TablesOk(s) && VecOk(s) && t in s.pc && s.pc[t].PushTable? && ThreadOk(s, t)
    ensures TablesOk(DoPush(s, t, true)) && VecOk(DoPush(s, t, true))
    ensures forall u :: Registered(DoPush(s, t, true), u) <==> Registered(s, u) || u == t
  {
    var s' := DoPush(s, t, true);
    var q := s.table[t];
    forall i | 0 <= i < |s.vec| ensures s.vec[i] != q && Listed(s', s.vec[i]) {
      assert Listed(s, s.vec[i]);
    }
    assert s'.vec[|s.vec|] == q;
    forall u | u in s'.table ensures TableOk(s', u) {
      assert TableOk(s, u);
    }
  }

  lemma PushObjects(s: State, t: Tid)
    requires TablesOk(s) && VecOk(s) && ObjectsOk(s) && StoredOk(s) && t in s.pc && s.pc[t].PushTable? && ThreadOk(s, t)
    ensures ObjectsOk(DoPush(s, t, true)) && StoredOk(DoPush(s, t, true))
  {
    var s' := DoPush(s, t, true);
    PushVec(s, t);
    forall u: Tid, id: nat ensures Get(s', u, id) == Get(s, u, id) {
    }
    forall n | n in s'.objects ensures ObjectOk(s', n) {
      assert ObjectOk(s, n);
    }
  }

  lemma PushKeeps(s: State, t: Tid)
    requires Structure(s) && t in s.pc && s.pc[t].PushTable? && s.lock == None
    ensures Structure(DoPush(s, t, true))
  {
    var s' := DoPush(s, t, true);
    assert ThreadOk(s, t);
    PushVec(s, t);
    PushObjects(s, t);
    forall q, id: nat ensures SlotAt(s', q, id) == SlotAt(s, q, id) {
    }
    forall u | u in s.pc && u != t ensures Untouched(s, s', u) {
    }
    OthersKept(s, s', t);
  }

  /** What the store changes, seen through getThreadLocalStorage: the calling thread's slot and no other. */
  lemma StoreChangesOneSlot(s: State, t: Tid, n: ObjId, u: Tid, id: nat)
    requires TablesOk(s) && t in s.pc && s.pc[t].StoreSlot? && t in s.table && Registered(s, t) && s.pc[t].id < MAX_INSTANCE_ID
    ensures Get(DoStore(s, t, n), u, id) == if u == t && id == s.pc[t].id then s.pc[t].p else Get(s, u, id)
  {
    assert TableOk(s, t);
    if u in s.table {
      assert TableOk(s, u);
    }
  }

  lemma StoreTables(s: State, t: Tid, n: ObjId)
    requires TablesOk(s) && VecOk(s) && t in s.pc && s.pc[t].StoreSlot? && ThreadOk(s, t)
    ensures TablesOk(DoStore(s, t, n)) && VecOk(DoStore(s, t, n))
    ensures forall u :: Registered(DoStore(s, t, n), u) <==> Registered(s, u)
  {
    var s' := DoStore(s, t, n);
    forall u | u in s'.table ensures TableOk(s', u) {
      assert TableOk(s, u);
    }
    forall i | 0 <= i < |s'.vec| ensures Listed(s', s'.vec[i]) {
      assert Listed(s, s.vec[i]);
    }
  }

  lemma StoreObjects(s: State, t: Tid, n: ObjId)
    requires NULL !in s.heap && TablesOk(s) && VecOk(s) && ObjectsOk(s)
    requires t in s.pc && s.pc[t].StoreSlot? && ThreadOk(s, t) && n !in s.objects
    ensures ObjectsOk(DoStore(s, t, n))
  {
    var s' := DoStore(s, t, n);
    StoreTables(s, t, n);
    forall m | m in s'.objects ensures ObjectOk(s', m) {
      if m == n {
        StoreChangesOneSlot(s, t, n, t, s.pc[t].id);
      } else {
        assert ObjectOk(s, m);
        StoreChangesOneSlot(s, t, n, s.objects[m].owner, s.objects[m].id);
      }
    }
  }

  lemma StoreStored(s: State, t: Tid, n: ObjId)
    requires NULL !in s.heap && TablesOk(s) && VecOk(s) && StoredOk(s)
    requires t in s.pc && s.pc[t].StoreSlot? && ThreadOk(s, t)
    ensures StoredOk(DoStore(s, t, n))
  {
    var s' := DoStore(s, t, n);
    StoreTables(s, t, n);
    forall u: Tid, id: nat
      ensures Get(s', u, id) == if u == t && id == s.pc[t].id then s.pc[t].p else Get(s, u, id)
    {
      StoreChangesOneSlot(s, t, n, u, id);
    }
  }

  lemma StoreUntouched(s: State, t: Tid, n: ObjId, u: Tid)
    requires TablesOk(s) && t in s.pc && s.pc[t].StoreSlot? && ThreadOk(s, t) && n !in s.objects && u in s.pc && u != t
    ensures Untouched(s, DoStore(s, t, n), u)
  {
    assert TableOk(s, t);
    if u in s.table {
      assert TableOk(s, u);
    }
  }

  lemma StoreKeeps(s: State, t: Tid, n: ObjId)
    requires Structure(s) && t in s.pc && s.pc[t].StoreSlot? && n !in s.objects
    ensures Structure(DoStore(s, t, n))
  {
    var s' := DoStore(s, t, n);
    assert ThreadOk(s, t);
    StoreTables(s, t, n);
    StoreObjects(s, t, n);
    StoreStored(s, t, n);
    forall u | u in s.pc && u != t ensures Untouched(s, s', u) {
      StoreUntouched(s, t, n, u);
    }
    assert SlotsPersist(s, s');
    OthersKept(s, s', t);
  }
}
