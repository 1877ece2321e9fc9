// Uninterrupted constructor and destructor calls, and a reachable state with a dangling slot.
module ProtocolStale {
  import opened Bitset
  import opened Sums
  import opened Protocol
  import opened Basics
  import opened ProtocolInvariant
  import opened ProtocolRuns
  import opened ProtocolTheorems

  lemma {:induction false} ReachesThen(start: State, run: seq<Event>, s: State, t: Tid, a: Action)
    requires Reaches(start, run, s) && Enabled(s, t, a)
    ensures Reaches(start, run + [Event(t, a)], Next(s, t, a))
    decreases |run|
  {
    if run == [] {
      assert [Event(t, a)][1..] == [];
      assert Reaches(Next(s, t, a), [], Next(s, t, a));
    } else {
      ReachesThen(Next(start, run[0].t, run[0].a), run[1..], s, t, a);
      assert (run + [Event(t, a)])[1..] == run[1..] + [Event(t, a)];
    }
  }

  lemma ReachableThen(s: State, t: Tid, a: Action)
    requires Reachable(s) && Enabled(s, t, a)
    ensures Reachable(Next(s, t, a))
  {
    var start, run :| Initial(start) && Reaches(start, run, s);
    ReachesThen(start, run, s, t, a);
  }

  lemma PutTwice<K, V>(m: map<K, V>, k: K, a: V, b: V)
    ensures m[k := a][k := b] == m[k := b]
  {
  }

  // ---------------------------------------------------------------------------------------------
  // __lldkAllocate and __lldkFree without interruption
  // ---------------------------------------------------------------------------------------------

  ghost function WithHeader(s: State, t: Tid, p: Ptr): State
    requires t in s.pc && s.pc[t].Alloc?
  {
    var Alloc(size, _, back) := s.pc[t];
    Goto(s, t, Alloc(size, CountIn(p), back)).(heap := s.heap[p := Block(Some(size), false, AllocOwner(t, back))])
  }

  lemma HeaderRun(s: State, t: Tid, p: Ptr)
    requires Reachable(s) && t in s.pc && s.pc[t].Alloc? && s.pc[t].stage == CallMalloc && p != NULL && p !in s.heap
    ensures Reachable(WithHeader(s, t, p))
  {
    ReachableThen(s, t, Malloc(p));
    ReachableThen(DoMalloc(s, t, p), t, PutHeader);
    var Alloc(size, _, back) := s.pc[t];
    PutTwice(s.heap, p, Block(None, false, AllocOwner(t, back)), Block(Some(size), false, AllocOwner(t, back)));
    PutTwice(s.pc, t, Alloc(size, WriteHeader(p), back), Alloc(size, CountIn(p), back));
    assert DoPutHeader(DoMalloc(s, t, p), t) == WithHeader(s, t, p);
  }

  lemma AllocateRun(s: State, t: Tid, p: Ptr)
    requires Reachable(s) && t in s.pc && s.pc[t].Alloc? && s.pc[t].stage == CallMalloc && p != NULL && p !in s.heap
    ensures Reachable(DoCountAllocated(WithHeader(s, t, p), t))
  {
    HeaderRun(s, t, p);
    ReachableThen(WithHeader(s, t, p), t, CountAllocated);
  }

  // ---------------------------------------------------------------------------------------------
  // A thread's first constructor
  // ---------------------------------------------------------------------------------------------

  ghost function WithId(s: State, t: Tid, size: nat): State
    requires t in s.pc
  {
    Goto(s, t, Alloc(size, CallMalloc, ToConstructor(FreshId(s)))).(ids := s.ids[FreshId(s) := HeldByThread(t)])
  }

  lemma IdRun(s: State, t: Tid, size: nat)
    requires Reachable(s) && t in s.pc && s.pc[t] == Idle && s.lock == None && FreshId(s) != MAX_INSTANCE_ID
    ensures Reachable(WithId(s, t, size))
  {
    var s0 := Goto(s, t, NewId(size));
    ReachableThen(s, t, StartConstruct(size));
    ReachableThen(s0, t, TakeId);
    PutTwice(s.pc, t, NewId(size), Alloc(size, CallMalloc, ToConstructor(FreshId(s))));
    assert DoTakeId(s0, t) == WithId(s, t, size);
  }

  /** The storage of a constructor, up to the look for the thread's table. */
  ghost function WithStorage(s: State, t: Tid, size: nat, p: Ptr): State
    requires t in s.pc
  {
    var id := FreshId(s);
    Goto(s, t, FindTable(id, p, size))
      .(ids := s.ids[id := HeldByThread(t)], heap := s.heap[p := Block(Some(size), true, ByThread(t))],
        tally := TallyIn(s.tally, size))
  }

  lemma StorageRun(s: State, t: Tid, size: nat, p: Ptr)
    requires Reachable(s) && t in s.pc && s.pc[t] == Idle && s.lock == None && FreshId(s) != MAX_INSTANCE_ID
    requires p != NULL && p !in s.heap
    ensures Reachable(WithStorage(s, t, size, p))
  {
    IdRun(s, t, size);
    var s1 := WithId(s, t, size);
    AllocateRun(s1, t, p);
    var id := FreshId(s);
    var back := ToConstructor(id);
    PutTwice(s.pc, t, Alloc(size, CallMalloc, back), Alloc(size, CountIn(p), back));
    PutTwice(s.pc, t, Alloc(size, CountIn(p), back), FindTable(id, p, size));
    PutTwice(s.heap, p, Block(Some(size), false, ByThread(t)), Block(Some(size), true, ByThread(t)));
    assert DoCountAllocated(WithHeader(s1, t, p), t) == WithStorage(s, t, size, p);
  }

  /** A thread's first table, zeroed. */
  ghost function WithTable(s: State, t: Tid, id: nat, p: Ptr, size: nat, q: Ptr): State
    requires t in s.pc
  {
    Goto(s, t, PushTable(id, p, size))
      .(heap := s.heap[q := Block(Some(TABLE_BYTES), true, TableOf(t))], tally := TallyIn(s.tally, TABLE_BYTES),
        table := s.table[t := q], slots := s.slots[q := ZeroedTable()])
  }

  lemma TableRun(s: State, t: Tid, id: nat, p: Ptr, size: nat, q: Ptr)
    requires Reachable(s) && t in s.pc && s.pc[t] == FindTable(id, p, size) && t !in s.table && q != NULL && q !in s.heap
    ensures Reachable(WithTable(s, t, id, p, size, q))
  {
    var s1 := Goto(s, t, Alloc(TABLE_BYTES, CallMalloc, ToTable(id, p, size)));
    ReachableThen(s, t, LookForTable);
    assert DoLookForTable(s, t) == s1;
    AllocateRun(s1, t, q);
    ZeroRun(s, t, id, p, size, q);
  }

  lemma ZeroRun(s: State, t: Tid, id: nat, p: Ptr, size: nat, q: Ptr)
    requires t in s.pc && s.pc[t] == FindTable(id, p, size)
    requires Reachable(DoCountAllocated(WithHeader(Goto(s, t, Alloc(TABLE_BYTES, CallMalloc, ToTable(id, p, size))), t, q), t))
    ensures Reachable(WithTable(s, t, id, p, size, q))
  {
    var s2 := DoCountAllocated(WithHeader(Goto(s, t, Alloc(TABLE_BYTES, CallMalloc, ToTable(id, p, size))), t, q), t);
    ReachableThen(s2, t, ZeroNewTable);
    var back := ToTable(id, p, size);
    PutTwice(s.pc, t, Alloc(TABLE_BYTES, CallMalloc, back), Alloc(TABLE_BYTES, CountIn(q), back));
    PutTwice(s.pc, t, Alloc(TABLE_BYTES, CountIn(q), back), ZeroTable(id, p, size));
    PutTwice(s.pc, t, ZeroTable(id, p, size), PushTable(id, p, size));
    PutTwice(s.heap, q, Block(Some(TABLE_BYTES), false, TableOf(t)), Block(Some(TABLE_BYTES), true, TableOf(t)));
    assert DoZeroNewTable(s2, t) == WithTable(s, t, id, p, size, q);
  }

  /** What a thread's first constructor leaves behind. */
  ghost function Constructed(s: State, t: Tid, size: nat, p: Ptr, q: Ptr, n: ObjId): State
    requires t in s.pc && FreshId(s) < MAX_INSTANCE_ID
  {
    var id := FreshId(s);
    s.(ids := s.ids[id := HeldByObject(n)], vec := s.vec + [q], table := s.table[t := q],
       slots := s.slots[q := Written(ZeroedTable(), id, p)],
       objects := s.objects[n := Object(t, id, p, size)],
       heap := s.heap[p := Block(Some(size), true, ByObject(n))][q := Block(Some(TABLE_BYTES), true, TableOf(t))],
       tally := TallyIn(TallyIn(s.tally, size), TABLE_BYTES),
       pc := s.pc[t := Idle], stored := s.stored + {(t, id)})
  }

  lemma ConstructRun(s: State, t: Tid, size: nat, p: Ptr, q: Ptr, n: ObjId)
    requires Reachable(s) && t in s.pc && s.pc[t] == Idle && s.lock == None && FreshId(s) < MAX_INSTANCE_ID && t !in s.table
    requires p != NULL && q != NULL && p != q && p !in s.heap && q !in s.heap && n !in s.objects
    ensures Reachable(Constructed(s, t, size, p, q, n))
  {
    var id := FreshId(s);
    var s1 := WithStorage(s, t, size, p);
    StorageRun(s, t, size, p);
    TableRun(s1, t, id, p, size, q);
    PushRun(s, t, size, p, q);
    StoreRun(s, t, size, p, q, n);
  }

  lemma PutPast<K, V>(m: map<K, V>, k: K, a: V, j: K, b: V, c: V)
    requires k != j
    ensures m[k := a][j := b][k := c] == m[k := c][j := b]
  {
  }

  lemma PushRun(s: State, t: Tid, size: nat, p: Ptr, q: Ptr)
    requires t in s.pc && s.lock == None && FreshId(s) < MAX_INSTANCE_ID
    requires Reachable(WithTable(WithStorage(s, t, size, p), t, FreshId(s), p, size, q))
    ensures Reachable(WithVector(s, t, size, p, q))
  {
    var id := FreshId(s);
    var s2 := WithTable(WithStorage(s, t, size, p), t, id, p, size, q);
    ReachableThen(s2, t, Push(true));
    PutTwice(s.pc, t, FindTable(id, p, size), PushTable(id, p, size));
    PutTwice(s.pc, t, PushTable(id, p, size), StoreSlot(id, p, size));
    assert DoPush(s2, t, true) == WithVector(s, t, size, p, q);
  }

  /** The table registered, about to store. */
  ghost function WithVector(s: State, t: Tid, size: nat, p: Ptr, q: Ptr): State
    requires t in s.pc
  {
    var id := FreshId(s);
    s.(ids := s.ids[id := HeldByThread(t)], vec := s.vec + [q], table := s.table[t := q],
       slots := s.slots[q := ZeroedTable()],
       heap := s.heap[p := Block(Some(size), true, ByThread(t))][q := Block(Some(TABLE_BYTES), true, TableOf(t))],
       tally := TallyIn(TallyIn(s.tally, size), TABLE_BYTES),
       pc := s.pc[t := StoreSlot(id, p, size)])
  }

  lemma StoreRun(s: State, t: Tid, size: nat, p: Ptr, q: Ptr, n: ObjId)
    requires t in s.pc && FreshId(s) < MAX_INSTANCE_ID && p != q && n !in s.objects
    requires Reachable(WithVector(s, t, size, p, q))
    ensures Reachable(Constructed(s, t, size, p, q, n))
  {
    var id := FreshId(s);
    var s3 := WithVector(s, t, size, p, q);
    ReachableThen(s3, t, Store(n));
    PutTwice(s.pc, t, StoreSlot(id, p, size), Idle);
    PutTwice(s.ids, id, HeldByThread(t), HeldByObject(n));
    PutTwice(s.slots, q, ZeroedTable(), Written(ZeroedTable(), id, p));
    PutPast(s.heap, p, Block(Some(size), true, ByThread(t)), q, Block(Some(TABLE_BYTES), true, TableOf(t)),
      Block(Some(size), true, ByObject(n)));
    assert DoStore(s3, t, n) == Constructed(s, t, size, p, q, n);
  }

  // ---------------------------------------------------------------------------------------------
  // A destructor
  // ---------------------------------------------------------------------------------------------

  /** What the destructor of object `n` leaves behind: the slot and the record of the store stay. */
  ghost function Destroyed(s: State, n: ObjId): State
    requires n in s.objects
  {
    var o := s.objects[n];
    s.(ids := s.ids - {o.id}, objects := s.objects - {n}, heap := s.heap - {o.block}, tally := TallyOut(s.tally, o.size))
  }

  ghost function Loaded(s: State, n: ObjId): State
    requires n in s.objects && s.objects[n].owner in s.pc
  {
    var o := s.objects[n];
    Goto(s, o.owner, Free(o.block, o.size, ReadHeader, FromDestructor(o.id)))
      .(objects := s.objects - {n}, ids := s.ids[o.id := HeldByThread(o.owner)],
        heap := s.heap[o.block := Block(Some(o.size), true, ByThread(o.owner))])
  }

  lemma LoadRun(s: State, n: ObjId)
    requires Reachable(s) && n in s.objects && s.objects[n].owner in s.pc && s.pc[s.objects[n].owner] == Idle
    ensures Reachable(Loaded(s, n))
  {
    var o := s.objects[n];
    var t := o.owner;
    ReachableStructure(s);
    assert ObjectOk(s, n);
    var s1 := Goto(s, t, ReadSlot(n, o.id));
    ReachableThen(s, t, StartDestroy(n));
    ReachableThen(s1, t, LoadOwnSlot);
    assert Get(s1, t, o.id) == Get(s, t, o.id);
    PutTwice(s.pc, t, ReadSlot(n, o.id), Free(o.block, o.size, ReadHeader, FromDestructor(o.id)));
    assert DoLoadOwnSlot(s1, t) == Loaded(s, n);
  }

  lemma PutDrop<K, V>(m: map<K, V>, k: K, a: V)
    ensures m[k := a] - {k} == m - {k}
  {
  }

  /** __lldkFree, called by a destructor. */
  lemma FreeRun(s: State, t: Tid, p: Ptr, want: nat, id: nat)
    requires Reachable(s) && t in s.pc && s.pc[t] == Free(p, want, ReadHeader, FromDestructor(id))
    ensures Reachable(Goto(s, t, ClearSlot(id)).(heap := s.heap - {p}, tally := TallyOut(s.tally, want)))
  {
    ReachableStructure(s);
    assert ThreadOk(s, t);
    var ret := FromDestructor(id);
    var s1 := Goto(s, t, Free(p, want, CountOut(want), ret));
    ReachableThen(s, t, TakeHeader);
    assert DoTakeHeader(s, t) == s1;
    FreeRest(s, t, p, want, id);
  }

  ghost function CountedOut(s: State, t: Tid, p: Ptr, want: nat, id: nat): State
    requires p in s.heap
  {
    Goto(s, t, Free(p, want, CallFree, FromDestructor(id)))
      .(tally := TallyOut(s.tally, want), heap := s.heap[p := s.heap[p].(counted := false)])
  }

  lemma FreeRest(s: State, t: Tid, p: Ptr, want: nat, id: nat)
    requires t in s.pc && p in s.heap
    requires Reachable(Goto(s, t, Free(p, want, CountOut(want), FromDestructor(id))))
    ensures Reachable(Goto(s, t, ClearSlot(id)).(heap := s.heap - {p}, tally := TallyOut(s.tally, want)))
  {
    var ret := FromDestructor(id);
    var s1 := Goto(s, t, Free(p, want, CountOut(want), ret));
    ReachableThen(s1, t, CountFreed);
    PutTwice(s.pc, t, Free(p, want, CountOut(want), ret), Free(p, want, CallFree, ret));
    assert DoCountFreed(s1, t) == CountedOut(s, t, p, want, id);
    ReleaseRun(s, t, p, want, id);
  }

  lemma ReleaseRun(s: State, t: Tid, p: Ptr, want: nat, id: nat)
    requires t in s.pc && p in s.heap && Reachable(CountedOut(s, t, p, want, id))
    ensures Reachable(Goto(s, t, ClearSlot(id)).(heap := s.heap - {p}, tally := TallyOut(s.tally, want)))
  {
    var s2 := CountedOut(s, t, p, want, id);
    ReachableThen(s2, t, Release);
    PutTwice(s.pc, t, Free(p, want, CallFree, FromDestructor(id)), ClearSlot(id));
    PutDrop(s.heap, p, s.heap[p].(counted := false));
    assert DoRelease(s2, t) == Goto(s, t, ClearSlot(id)).(heap := s.heap - {p}, tally := TallyOut(s.tally, want));
  }

  ghost function Cleared(s: State, n: ObjId, pc: PC): State
    requires n in s.objects && s.objects[n].owner in s.pc
  {
    var o := s.objects[n];
    Goto(Loaded(s, n), o.owner, pc).(heap := s.heap - {o.block}, tally := TallyOut(s.tally, o.size))
  }

  lemma DestroyRun(s: State, n: ObjId)
    requires Reachable(s) && s.lock == None && n in s.objects && s.objects[n].owner in s.pc && s.pc[s.objects[n].owner] == Idle
    ensures Reachable(Destroyed(s, n))
  {
    var o := s.objects[n];
    LoadRun(s, n);
    FreeRun(Loaded(s, n), o.owner, o.block, o.size, o.id);
    PutDrop(s.heap, o.block, Block(Some(o.size), true, ByThread(o.owner)));
    NullRun(s, n);
    IdBackRun(s, n);
  }

  /** The rejected null store. */
  lemma NullRun(s: State, n: ObjId)
    requires n in s.objects && s.objects[n].owner in s.pc && Reachable(Cleared(s, n, ClearSlot(s.objects[n].id)))
    ensures Reachable(Cleared(s, n, ReturnId(s.objects[n].id)))
  {
    var o := s.objects[n];
    var s2 := Cleared(s, n, ClearSlot(o.id));
    ReachableThen(s2, o.owner, StoreNull);
    PutTwice(Loaded(s, n).pc, o.owner, ClearSlot(o.id), ReturnId(o.id));
    assert DoStoreNull(s2, o.owner) == Cleared(s, n, ReturnId(o.id));
  }

  lemma IdBackRun(s: State, n: ObjId)
    requires s.lock == None && n in s.objects && s.objects[n].owner in s.pc && s.pc[s.objects[n].owner] == Idle
    requires Reachable(Cleared(s, n, ReturnId(s.objects[n].id)))
    ensures Reachable(Destroyed(s, n))
  {
    var o := s.objects[n];
    var t := o.owner;
    var s3 := Cleared(s, n, ReturnId(o.id));
    ReachableThen(s3, t, GiveIdBack);
    PutTwice(s.pc, t, Free(o.block, o.size, ReadHeader, FromDestructor(o.id)), ReturnId(o.id));
    PutTwice(s.pc, t, ReturnId(o.id), Idle);
    assert s.pc[t := Idle] == s.pc;
    PutDrop(s.ids, o.id, HeldByThread(t));
    assert DoGiveIdBack(s3, t) == Destroyed(s, n);
  }

  // ---------------------------------------------------------------------------------------------
  // A dangling slot
  // ---------------------------------------------------------------------------------------------

  ghost function TwoIdleThreads(): State {
    State(map[], [], None, map[], map[], map[], map[], map[], Tally(0, 0, 0, 0), map[0 := Idle, 1 := Idle], 0, {})
  }

  lemma OneObject() returns (s: State)
    ensures Reachable(s) && s.pc == map[0 := Idle, 1 := Idle] && s.lock == None
    ensures s.ids == map[0 := HeldByObject(100)] && s.objects == map[100 := Object(0, 0, 1, 8)]
    ensures s.table == map[0 := 2] && s.vec == [2] && s.heap.Keys == {1, 2}
    ensures Get(s, 0, 0) == 1
  {
    var s0 := TwoIdleThreads();
    assert Initial(s0) && Reaches(s0, [], s0);
    assert FreshId(s0) == 0;
    ConstructRun(s0, 0, 8, 1, 2, 100);
    s := Constructed(s0, 0, 8, 1, 2, 100);
  }

  lemma OneObjectComeAndGone() returns (s: State)
    ensures Reachable(s) && s.pc == map[0 := Idle, 1 := Idle] && s.lock == None && s.ids == map[] && s.objects == map[]
    ensures s.table == map[0 := 2] && s.vec == [2] && s.heap.Keys == {2}
    ensures Get(s, 0, 0) == 1
  {
    var s1 := OneObject();
    DestroyRun(s1, 100);
    s := Destroyed(s1, 100);
  }

  /** Thread 0 constructs and destroys an object, then thread 1 constructs one and is given the same id: thread 0's
      slot for that id still holds the freed block, and a foreach on the live object would be called back with it. */
  lemma DanglingSlotIsReachable() returns (s: State)
    ensures Reachable(s) && Quiet(s)
    ensures 200 in s.objects && s.objects[200].owner == 1
    ensures Get(s, 0, s.objects[200].id) != NULL && Get(s, 0, s.objects[200].id) !in s.heap
    ensures 0 < |s.vec| && SlotAt(s, s.vec[0], s.objects[200].id) == Get(s, 0, s.objects[200].id)
  {
    var s2 := OneObjectComeAndGone();
    assert FreshId(s2) == 0;
    ConstructRun(s2, 1, 8, 3, 4, 200);
    s := Constructed(s2, 1, 8, 3, 4, 200);
  }
}
