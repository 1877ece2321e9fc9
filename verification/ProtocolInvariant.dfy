// What every step of the registry protocol keeps.
module ProtocolInvariant {
  import opened Bitset
  import opened Sums
  import opened Protocol
  import opened Basics

  // ---------------------------------------------------------------------------------------------
  // The invariant
  // ---------------------------------------------------------------------------------------------

  predicate Holds(s: State, t: Tid, id: nat) {
    id < MAX_INSTANCE_ID && id in s.ids && s.ids[id] == HeldByThread(t)
  }

  /** `p` is a counted block of `size` bytes that thread `t` alone answers for. */
  predicate Owns(s: State, t: Tid, p: Ptr, size: nat) {
    p in s.heap && s.heap[p] == Block(Some(size), true, ByThread(t))
  }

  /** The thread's table exists but is not (or no longer going to be) in the vector. */
  predicate Pending(pc: PC) {
    pc.ZeroTable? || pc.PushTable? || (pc.Free? && pc.ret.FromRollback?)
  }

  predicate Registered(s: State, t: Tid) {
    t in s.table && t in s.pc && !Pending(s.pc[t])
  }

  ghost predicate Visited(w: Walk, j: nat) {
    exists i :: 0 <= i < |w.visits| && w.visits[i].index == j
  }

  /** Having passed indices 0..k: callbacks in registration order, no index twice, never with null, and none
      of the slots that were filled when the lock was taken left out. */
  ghost predicate Fair(w: Walk, k: nat) {
    && k <= |w.order| == |w.before|
    && (forall i :: 0 <= i < |w.visits| ==> w.visits[i].index < k && w.visits[i].storage != NULL)
    && (forall i, j :: 0 <= i < j < |w.visits| ==> w.visits[i].index < w.visits[j].index)
    && (forall j :: 0 <= j < k && w.before[j] != NULL ==> Visited(w, j))
  }

  ghost predicate AllReturnedZero(visits: seq<Visit>) {
    forall i :: 0 <= i < |visits| ==> visits[i].ret == 0
  }

  ghost predicate WalkOk(s: State, w: Walk, k: nat) {
    && w.order == s.vec && w.id < MAX_INSTANCE_ID && Fair(w, k) && AllReturnedZero(w.visits)
    && forall j :: 0 <= j < |s.vec| && w.before[j] != NULL ==> SlotAt(s, s.vec[j], w.id) != NULL
  }

  /** How a finished `foreach` ended: 0 after the whole vector, -1 right after the first nonzero callback. */
  ghost predicate WalkDone(w: Walk, k: nat, rc: int) {
    && Fair(w, k)
    && (rc == 0 ==> k == |w.order| && AllReturnedZero(w.visits))
    && (rc != 0 ==>
          var n := |w.visits|;
          rc == -1 && n > 0 && w.visits[n - 1].ret != 0 && w.visits[n - 1].index == k - 1 && AllReturnedZero(w.visits[..n - 1]))
  }

  predicate AllocOk(s: State, t: Tid, size: nat, stage: AllocStage, back: AllocReturn) {
    && (match stage
        case CallMalloc => true
        case WriteHeader(p) => p in s.heap && s.heap[p] == Block(None, false, AllocOwner(t, back))
        case CountIn(p) => p in s.heap && s.heap[p] == Block(Some(size), false, AllocOwner(t, back)))
    && (match back
        case ToConstructor(id) => Holds(s, t, id)
        case ToTable(id, p, n) => Holds(s, t, id) && Owns(s, t, p, n) && t !in s.table && size == TABLE_BYTES
        case ToCaller => true)
  }

  predicate FreeOk(s: State, t: Tid, p: Ptr, want: nat, stage: FreeStage, ret: FreeReturn) {
    && p in s.heap
    && s.heap[p] == Block(Some(want), stage != CallFree, if ret.FromRollback? then TableOf(t) else ByThread(t))
    && (stage.CountOut? ==> stage.size == want)
    && (match ret
        case FromRollback(id, q, n) => Holds(s, t, id) && Owns(s, t, q, n) && t in s.table && s.table[t] == p && want == TABLE_BYTES
        case FromConstructor(id) => Holds(s, t, id)
        case FromDestructor(id) => Holds(s, t, id)
        case FromCaller => true)
  }

  ghost predicate ThreadOk(s: State, t: Tid)
    requires t in s.pc
  {
    match s.pc[t]
    case Idle => true
    case NewId(_) => true
    case Alloc(size, stage, back) => AllocOk(s, t, size, stage, back)
    case FindTable(id, p, size) => Holds(s, t, id) && Owns(s, t, p, size)
    case ZeroTable(id, p, size) =>
      Holds(s, t, id) && Owns(s, t, p, size) && t in s.table && s.table[t] in s.heap
      && s.heap[s.table[t]] == Block(Some(TABLE_BYTES), true, TableOf(t))
    case PushTable(id, p, size) =>
      Holds(s, t, id) && Owns(s, t, p, size) && t in s.table && s.table[t] in s.heap
      && s.heap[s.table[t]] == Block(Some(TABLE_BYTES), true, TableOf(t))
      && s.table[t] in s.slots && s.slots[s.table[t]] == ZeroedTable()
    case StoreSlot(id, p, size) => Holds(s, t, id) && Owns(s, t, p, size) && t in s.table
    case Free(p, want, stage, ret) => FreeOk(s, t, p, want, stage, ret)
    case ReturnId(id) => Holds(s, t, id)
    case ReadSlot(n, id) => n in s.objects && s.objects[n].owner == t && s.objects[n].id == id
    case ClearSlot(id) => Holds(s, t, id)
    case Examine(w, k) => s.lock == Some(t) && WalkOk(s, w, k)
    case CallBack(w, k) => s.lock == Some(t) && WalkOk(s, w, k) && k < |s.vec| && SlotAt(s, s.vec[k], w.id) != NULL
    case Walked(w, k, rc) => WalkDone(w, k, rc)
  }

  predicate Shape(s: State) {
    && NULL !in s.heap
    && (forall id :: id in s.ids ==> id < MAX_INSTANCE_ID)
    && (s.lock.Some? ==> s.lock.value in s.pc && (s.pc[s.lock.value].Examine? || s.pc[s.lock.value].CallBack?))
  }

  ghost predicate ThreadsOk(s: State) {
    forall t :: t in s.pc ==> ThreadOk(s, t)
  }

  predicate TableOk(s: State, t: Tid)
    requires t in s.table
  {
    && t in s.pc && s.table[t] in s.heap && s.heap[s.table[t]].owner == TableOf(t)
    && (Registered(s, t) ==>
          s.table[t] in s.slots && |s.slots[s.table[t]]| == MAX_INSTANCE_ID && s.table[t] in s.vec)
  }

  predicate TablesOk(s: State) {
    forall t :: t in s.table ==> TableOk(s, t)
  }

  /** `q` is the registered table of the thread its tag names. */
  predicate Listed(s: State, q: Ptr) {
    && q in s.heap && s.heap[q].owner.TableOf?
    && var t := s.heap[q].owner.t; Registered(s, t) && s.table[t] == q
  }

  predicate VecOk(s: State) {
    && (forall i :: 0 <= i < |s.vec| ==> Listed(s, s.vec[i]))
    && (forall i, j :: 0 <= i < j < |s.vec| ==> s.vec[i] != s.vec[j])
  }

  predicate ObjectOk(s: State, n: ObjId)
    requires n in s.objects
  {
    var o := s.objects[n];
    && Registered(s, o.owner)
    && o.id < MAX_INSTANCE_ID && o.id in s.ids && s.ids[o.id] == HeldByObject(n)
    && o.block in s.heap && s.heap[o.block] == Block(Some(o.size), true, ByObject(n))
    && Get(s, o.owner, o.id) == o.block
  }

  predicate ObjectsOk(s: State) {
    forall n :: n in s.objects ==> ObjectOk(s, n)
  }

  predicate RawOk(s: State) {
    forall p :: p in s.raw ==> p in s.heap && s.heap[p] == Block(Some(s.raw[p]), true, ByCaller)
  }

  /** A slot is non-null exactly when its thread once stored under that id. */
  ghost predicate StoredOk(s: State) {
    && (forall t, id :: (t, id) in s.stored ==> Registered(s, t) && id < MAX_INSTANCE_ID)
    && (forall t: Tid, id: nat {:trigger Get(s, t, id)} :: Registered(s, t) && id < MAX_INSTANCE_ID ==>
          ((t, id) in s.stored <==> Get(s, t, id) != NULL))
  }

  ghost predicate Structure(s: State) {
    Shape(s) && ThreadsOk(s) && TablesOk(s) && VecOk(s) && ObjectsOk(s) && RawOk(s) && StoredOk(s)
  }

  lemma InitialStructure(s: State)
    requires Initial(s)
    ensures Structure(s)
  {
  }

  // ---------------------------------------------------------------------------------------------
  // Frames
  // ---------------------------------------------------------------------------------------------

  predicate Mine(o: Owner, t: Tid) {
    o == ByThread(t) || o == TableOf(t)
  }

  /** Nothing that thread `u` relies on differs between the two states. */
  ghost predicate Untouched(s: State, s': State, u: Tid)
    requires u in s.pc
  {
    && u in s'.pc && s'.pc[u] == s.pc[u]
    && (u in s'.table <==> u in s.table)
    && (u in s.table ==> s'.table[u] == s.table[u])
    && (forall p :: p in s.heap && Mine(s.heap[p].owner, u) ==> p in s'.heap && s'.heap[p] == s.heap[p])
    && (forall id :: id in s.ids && s.ids[id] == HeldByThread(u) ==> id in s'.ids && s'.ids[id] == HeldByThread(u))
    && (u in s.table && s.table[u] in s.slots ==> s.table[u] in s'.slots && s'.slots[s.table[u]] == s.slots[s.table[u]])
    && (forall n :: n in s.objects && s.objects[n].owner == u ==> n in s'.objects && s'.objects[n] == s.objects[n])
    && (s.lock == Some(u) ==> s'.lock == Some(u) && s'.vec == s.vec)
  }

  /** No slot of a listed table goes from filled to null. */
  ghost predicate SlotsPersist(s: State, s': State) {
    forall q, id: nat {:trigger SlotAt(s', q, id)} :: q in s.vec && SlotAt(s, q, id) != NULL ==> SlotAt(s', q, id) != NULL
  }

  lemma WalkKept(s: State, s': State, w: Walk, k: nat)
    requires WalkOk(s, w, k) && s'.vec == s.vec && SlotsPersist(s, s')
    ensures WalkOk(s', w, k)
  {
    forall j | 0 <= j < |s'.vec| && w.before[j] != NULL ensures SlotAt(s', s'.vec[j], w.id) != NULL {
      assert SlotAt(s, s.vec[j], w.id) != NULL;
    }
  }

  lemma AllocKept(s: State, s': State, u: Tid, size: nat, stage: AllocStage, back: AllocReturn)
    requires u in s.pc && AllocOk(s, u, size, stage, back) && Untouched(s, s', u)
    ensures AllocOk(s', u, size, stage, back)
  {
  }

  lemma FreeKept(s: State, s': State, u: Tid, p: Ptr, want: nat, stage: FreeStage, ret: FreeReturn)
    requires u in s.pc && FreeOk(s, u, p, want, stage, ret) && Untouched(s, s', u)
    ensures FreeOk(s', u, p, want, stage, ret)
  {
  }

  lemma CallerKept(s: State, s': State, u: Tid)
    requires u in s.pc && ThreadOk(s, u) && Untouched(s, s', u)
    requires !s.pc[u].Examine? && !s.pc[u].CallBack?
    ensures ThreadOk(s', u)
  {
    var pc := s.pc[u];
    if pc.Alloc? {
      AllocKept(s, s', u, pc.size, pc.stage, pc.back);
    } else if pc.Free? {
      FreeKept(s, s', u, pc.p, pc.want, pc.fstage, pc.ret);
    }
  }

  lemma ThreadKept(s: State, s': State, u: Tid)
    requires u in s.pc && ThreadOk(s, u) && Untouched(s, s', u) && SlotsPersist(s, s')
    ensures ThreadOk(s', u)
  {
    var pc := s.pc[u];
    if pc.Examine? || pc.CallBack? {
      WalkKept(s, s', pc.w, pc.k);
      if pc.CallBack? {
        assert SlotAt(s, s.vec[pc.k], pc.w.id) != NULL;
        assert SlotAt(s', s'.vec[pc.k], pc.w.id) != NULL;
      }
    } else {
      CallerKept(s, s', u);
    }
  }

  /** A step of thread `t` that changes only its own program counter, its own blocks and ids, and the lock. */
  ghost predicate LocalStep(s: State, s': State, t: Tid)
    requires t in s.pc
  {
    && s'.pc.Keys == s.pc.Keys && (forall u :: u in s.pc && u != t ==> s'.pc[u] == s.pc[u])
    && s'.vec == s.vec && s'.table == s.table && s'.slots == s.slots && s'.objects == s.objects
    && s'.raw == s.raw && s'.stored == s.stored
    && (forall p :: p in s.heap && !Mine(s.heap[p].owner, t) ==> p in s'.heap && s'.heap[p] == s.heap[p])
    && (forall id :: id in s.ids && s.ids[id] != HeldByThread(t) ==> id in s'.ids && s'.ids[id] == s.ids[id])
    && (t in s.table ==> s.table[t] in s'.heap && s'.heap[s.table[t]].owner == TableOf(t))
    && (t in s.table ==> (Pending(s'.pc[t]) <==> Pending(s.pc[t])))
    && (s.lock.Some? && s.lock.value != t ==> s'.lock == s.lock)
    && Shape(s')
  }

  lemma LocalTables(s: State, s': State, t: Tid)
    requires t in s.pc && TablesOk(s) && VecOk(s) && LocalStep(s, s', t)
    ensures TablesOk(s') && VecOk(s')
    ensures forall u :: Registered(s', u) <==> Registered(s, u)
  {
    forall u | u in s.table ensures s.table[u] in s'.heap && s'.heap[s.table[u]].owner == TableOf(u) && TableOk(s', u) {
      assert TableOk(s, u);
      var q := s.table[u];
      if u != t {
        assert q in s.heap && !Mine(s.heap[q].owner, t);
      }
    }
    forall i | 0 <= i < |s'.vec| ensures Listed(s', s'.vec[i]) {
      assert Listed(s, s.vec[i]);
    }
  }

  lemma LocalObjects(s: State, s': State, t: Tid)
    requires t in s.pc && TablesOk(s) && VecOk(s) && ObjectsOk(s) && LocalStep(s, s', t)
    ensures ObjectsOk(s')
  {
    LocalTables(s, s', t);
    forall n | n in s'.objects ensures ObjectOk(s', n) {
      assert ObjectOk(s, n);
    }
  }

  lemma LocalStored(s: State, s': State, t: Tid)
    requires t in s.pc && TablesOk(s) && VecOk(s) && StoredOk(s) && LocalStep(s, s', t)
    ensures StoredOk(s')
  {
    LocalTables(s, s', t);
    forall u: Tid, id: nat ensures Get(s', u, id) == Get(s, u, id) {
      if u in s.table {
        assert SlotAt(s', s'.table[u], id) == SlotAt(s, s.table[u], id);
      }
    }
  }

  lemma LocalThreads(s: State, s': State, t: Tid)
    requires t in s.pc && ThreadsOk(s) && LocalStep(s, s', t) && ThreadOk(s', t)
    ensures ThreadsOk(s')
  {
    forall u | u in s.pc && u != t ensures ThreadOk(s', u) {
      assert Untouched(s, s', u);
      ThreadKept(s, s', u);
    }
  }

  lemma LocalStepKeeps(s: State, s': State, t: Tid)
    requires t in s.pc && Structure(s) && LocalStep(s, s', t) && ThreadOk(s', t)
    ensures Structure(s')
  {
    LocalTables(s, s', t);
    LocalObjects(s, s', t);
    LocalStored(s, s', t);
    LocalThreads(s, s', t);
  }
}
