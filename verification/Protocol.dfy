// The thread-local registry and the counting allocator under it, as a state machine over atomic steps:
// src/utilities/lldk_thread_local.cpp, src/utilities/lldk_thread_local.h and the three exported functions
// at the end of src/base/allocator_impl.cpp.
//
// Any number of threads run constructors, destructors, `foreach` and direct calls of __lldkAllocate and
// __lldkFree. A step is one access to shared memory, one critical section of a mutex, or one call into malloc
// or free; `foreach` holds the registry mutex across many steps. Fields and tags marked `aux` record history:
// no step reads them to decide what to do.
module Protocol {
  import opened Bitset
  import opened Sums
  import opened Basics

  type ObjId = int // the address of an LldkThreadLocal object

  const MAX_INSTANCE_ID: nat := 2048
  const TABLE_BYTES: nat := 16384 // sizeof(void *) * kMaxInstanceId

  // aux: who is responsible for a block, and who holds an id
  datatype Owner = ByThread(t: Tid) | ByObject(n: ObjId) | TableOf(t: Tid) | ByCaller
  datatype Holder = HeldByThread(t: Tid) | HeldByObject(n: ObjId) | Lost

  /** A live block: its size header once written, and (aux) whether it is counted in and not yet counted out. */
  datatype Block = Block(header: Option<nat>, counted: bool, owner: Owner)

  /** A constructed LldkThreadLocal. `m_uInstanceId` is `id`; the other fields are aux. */
  datatype Object = Object(owner: Tid, id: nat, block: Ptr, size: nat)

  datatype Tally = Tally(allocatedSize: int, allocatedCount: int, freedSize: int, freedCount: int)

  /** One callback of `foreach`: the index in the vector, the pointer passed and the value returned. */
  datatype Visit = Visit(index: nat, storage: Ptr, ret: int)

  /** A `foreach` in progress. aux: the vector and its slots for `id` as they were when the lock was taken. */
  datatype Walk = Walk(id: nat, order: seq<Ptr>, before: seq<Ptr>, visits: seq<Visit>)

  datatype AllocStage = CallMalloc | WriteHeader(p: Ptr) | CountIn(p: Ptr)
  datatype FreeStage = ReadHeader | CountOut(size: nat) | CallFree

  // Where __lldkAllocate and __lldkFree return to
  datatype AllocReturn = ToConstructor(id: nat) | ToTable(id: nat, p: Ptr, size: nat) | ToCaller
  datatype FreeReturn = FromRollback(id: nat, p: Ptr, size: nat) | FromConstructor(id: nat) | FromDestructor(id: nat) | FromCaller

  /** Where a thread is. `size` is sizeof(T) or the caller's request; `want` (aux) is the size asked for. */
  datatype PC =
    | Idle
    | NewId(size: nat)                                            // lldk_thread_local.cpp:18-28
    | Alloc(size: nat, stage: AllocStage, back: AllocReturn)      // allocator_impl.cpp:276-293
    | FindTable(id: nat, p: Ptr, size: nat)                       // lldk_thread_local.cpp:38-44
    | ZeroTable(id: nat, p: Ptr, size: nat)                       // lldk_thread_local.cpp:52
    | PushTable(id: nat, p: Ptr, size: nat)                       // lldk_thread_local.cpp:56-57
    | StoreSlot(id: nat, p: Ptr, size: nat)                       // lldk_thread_local.cpp:68
    | Free(p: Ptr, want: nat, fstage: FreeStage, ret: FreeReturn) // allocator_impl.cpp:295-313
    | ReturnId(id: nat)                                           // lldk_thread_local.cpp:30-34
    | ReadSlot(n: ObjId, id: nat)                                 // lldk_thread_local.h:134
    | ClearSlot(id: nat)                                          // lldk_thread_local.h:140
    | Examine(w: Walk, k: nat)                                    // lldk_thread_local.cpp:86-88
    | CallBack(w: Walk, k: nat)                                   // lldk_thread_local.cpp:90
    | Walked(w: Walk, k: nat, rc: int)                            // lldk_thread_local.cpp:93,97

  datatype State = State(
    ids: map<nat, Holder>,     // s_bitset is ids.Keys
    vec: seq<Ptr>,             // s_vecpppInstances
    lock: Option<Tid>,         // s_mutex of the registry, when held across steps
    table: map<Tid, Ptr>,      // s_ppInstances of each thread, absent for null
    slots: map<Ptr, seq<Ptr>>, // the contents of each zeroed table
    objects: map<ObjId, Object>,
    heap: map<Ptr, Block>,
    raw: map<Ptr, nat>,        // aux: blocks handed to direct callers, with the size asked for
    tally: Tally,              // s_allocateStats
    pc: map<Tid, PC>,
    lost: nat,                 // aux: constructor runs that ended without returning their id
    stored: set<(Tid, nat)>)   // aux: the (thread, id) slots ever written

  datatype Action =
    | StartConstruct(size: nat)
    | StartDestroy(n: ObjId)
    | StartForeach(id: nat)
    | StartAllocate(size: nat)
    | StartFree(p: Ptr)
    | TakeId
    | Malloc(p: Ptr) // the address malloc returns, or NULL
    | PutHeader
    | CountAllocated
    | LookForTable
    | ZeroNewTable
    | Push(ok: bool) // whether push_back succeeds or throws
    | Store(n: ObjId)
    | TakeHeader
    | CountFreed
    | Release
    | GiveIdBack
    | LoadOwnSlot
    | StoreNull
    | LoadSlot
    | Invoke(ret: int)
    | EndWalk
    | Leave

  function Goto(s: State, t: Tid, pc: PC): State {
    s.(pc := s.pc[t := pc])
  }

  /** Slot `id` of table `q`; NULL when there is no such table (Safe shows that this case does not arise). */
  function SlotAt(s: State, q: Ptr, id: nat): Ptr {
    if q in s.slots && id < |s.slots[q]| then s.slots[q][id] else NULL
  }

  /** getThreadLocalStorage on thread `t` (lldk_thread_local.cpp:72-75). */
  function Get(s: State, t: Tid, id: nat): Ptr {
    if t in s.table then SlotAt(s, s.table[t], id) else NULL
  }

  function HeaderOf(s: State, p: Ptr): nat {
    if p in s.heap && s.heap[p].header.Some? then s.heap[p].header.value else 0
  }

  ghost function FreshId(s: State): nat {
    LeastFree(s.ids.Keys, MAX_INSTANCE_ID)
  }

  function ZeroedTable(): (r: seq<Ptr>)
    ensures |r| == MAX_INSTANCE_ID && forall i :: 0 <= i < |r| ==> r[i] == NULL
  {
    seq<Ptr>(MAX_INSTANCE_ID, _ => NULL)
  }

  function Written(q: seq<Ptr>, id: nat, p: Ptr): (r: seq<Ptr>)
    requires id < |q|
    ensures |r| == |q| && r[id] == p && forall i :: 0 <= i < |q| && i != id ==> r[i] == q[i]
  {
    q[id := p]
  }

  function AllocOwner(t: Tid, back: AllocReturn): Owner {
    if back.ToTable? then TableOf(t) else ByThread(t)
  }

  // ---------------------------------------------------------------------------------------------
  // When a step can be taken
  // ---------------------------------------------------------------------------------------------

  ghost predicate Enabled(s: State, t: Tid, a: Action) {
    t in s.pc &&
    var pc := s.pc[t];
    match a
    case StartConstruct(size) => pc == Idle
    // each object is destroyed on the thread that constructed it
    case StartDestroy(n) => pc == Idle && n in s.objects && s.objects[n].owner == t
    case StartForeach(id) => pc == Idle && s.lock == None && id < MAX_INSTANCE_ID
    case StartAllocate(size) => pc == Idle
    case StartFree(p) => pc == Idle && p in s.raw
    case TakeId => pc.NewId? && s.lock == None
    case Malloc(p) => pc.Alloc? && pc.stage == CallMalloc && p !in s.heap
    case PutHeader => pc.Alloc? && pc.stage.WriteHeader?
    case CountAllocated => pc.Alloc? && pc.stage.CountIn?
    case LookForTable => pc.FindTable?
    case ZeroNewTable => pc.ZeroTable? && t in s.table
    case Push(ok) => pc.PushTable? && t in s.table && s.lock == None
    case Store(n) => pc.StoreSlot? && t in s.table && n !in s.objects
    case TakeHeader => pc.Free? && pc.fstage == ReadHeader
    case CountFreed => pc.Free? && pc.fstage.CountOut?
    case Release => pc.Free? && pc.fstage == CallFree
    case GiveIdBack => pc.ReturnId? && s.lock == None
    case LoadOwnSlot => pc.ReadSlot?
    case StoreNull => pc.ClearSlot?
    case LoadSlot => pc.Examine? && pc.k < |s.vec|
    case Invoke(ret) => pc.CallBack? && pc.k < |s.vec|
    case EndWalk => pc.Examine? && pc.k >= |s.vec|
    case Leave => pc.Walked?
  }

  // ---------------------------------------------------------------------------------------------
  // Registry ids
  // ---------------------------------------------------------------------------------------------

  /** newInstanceId; when every id is taken the constructor throws. */
  ghost function DoTakeId(s: State, t: Tid): (s': State)
    requires t in s.pc && s.pc[t].NewId?
    ensures s'.table == s.table && s'.slots == s.slots && s'.stored == s.stored
  {
    var id := FreshId(s);
    if id == MAX_INSTANCE_ID then Goto(s, t, Idle)
    else Goto(s, t, Alloc(s.pc[t].size, CallMalloc, ToConstructor(id))).(ids := s.ids[id := HeldByThread(t)])
  }

  /** deleteInstanceId */
  function DoGiveIdBack(s: State, t: Tid): (s': State)
    requires t in s.pc && s.pc[t].ReturnId?
    ensures s'.table == s.table && s'.slots == s.slots && s'.stored == s.stored
  {
    Goto(s, t, Idle).(ids := s.ids - {s.pc[t].id})
  }

  // ---------------------------------------------------------------------------------------------
  // __lldkAllocate and __lldkFree
  // ---------------------------------------------------------------------------------------------

  function DoMalloc(s: State, t: Tid, p: Ptr): (s': State)
    requires t in s.pc && s.pc[t].Alloc?
    ensures s'.table == s.table && s'.slots == s.slots && s'.stored == s.stored
  {
    var pc := s.pc[t];
    if p != NULL then
      Goto(s, t, pc.(stage := WriteHeader(p))).(heap := s.heap[p := Block(None, false, AllocOwner(t, pc.back))])
    else
      match pc.back
      // the constructor throws and keeps the id (lldk_thread_local.h:93-96)
      case ToConstructor(id) => Goto(s, t, Idle).(ids := s.ids[id := Lost], lost := s.lost + 1)
      // setThreadLocalStorage fails and the constructor frees its storage (lldk_thread_local.h:100-102)
      case ToTable(id, q, size) => Goto(s, t, Free(q, size, ReadHeader, FromConstructor(id)))
      case ToCaller => Goto(s, t, Idle)
  }

  function DoPutHeader(s: State, t: Tid): (s': State)
    requires t in s.pc && s.pc[t].Alloc? && s.pc[t].stage.WriteHeader?
    ensures s'.table == s.table && s'.slots == s.slots && s'.stored == s.stored
  {
    var pc := s.pc[t];
    var p := pc.stage.p;
    Goto(s, t, pc.(stage := CountIn(p))).(heap := s.heap[p := Block(Some(pc.size), false, AllocOwner(t, pc.back))])
  }

  // The counters are uint64_t and wrap.

  function TallyIn(y: Tally, size: nat): Tally {
    y.(allocatedSize := Wrap(y.allocatedSize + size), allocatedCount := Wrap(y.allocatedCount + 1))
  }

  function TallyOut(y: Tally, size: nat): Tally {
    y.(freedSize := Wrap(y.freedSize + size), freedCount := Wrap(y.freedCount + 1))
  }

  /** The locked update of the tally, and the return to whoever asked for the block. */
  function DoCountAllocated(s: State, t: Tid): (s': State)
    requires t in s.pc && s.pc[t].Alloc? && s.pc[t].stage.CountIn?
    ensures s'.slots == s.slots && s'.stored == s.stored
  {
    var pc := s.pc[t];
    var p := pc.stage.p;
    var owner := if pc.back.ToCaller? then ByCaller else AllocOwner(t, pc.back);
    var s1 := s.(tally := TallyIn(s.tally, pc.size), heap := s.heap[p := Block(Some(pc.size), true, owner)]);
    match pc.back
    case ToConstructor(id) => Goto(s1, t, FindTable(id, p, pc.size))
    case ToTable(id, storage, size) => Goto(s1, t, ZeroTable(id, storage, size)).(table := s.table[t := p])
    case ToCaller => Goto(s1, t, Idle).(raw := s.raw[p := pc.size])
  }

  function DoTakeHeader(s: State, t: Tid): (s': State)
    requires t in s.pc && s.pc[t].Free?
    ensures s'.table == s.table && s'.slots == s.slots && s'.stored == s.stored
  {
    Goto(s, t, s.pc[t].(fstage := CountOut(HeaderOf(s, s.pc[t].p))))
  }

  function DoCountFreed(s: State, t: Tid): (s': State)
    requires t in s.pc && s.pc[t].Free? && s.pc[t].fstage.CountOut?
    ensures s'.table == s.table && s'.slots == s.slots && s'.stored == s.stored
  {
    var pc := s.pc[t];
    var p := pc.p;
    Goto(s, t, pc.(fstage := CallFree))
      .(tally := TallyOut(s.tally, pc.fstage.size), heap := if p in s.heap then s.heap[p := s.heap[p].(counted := false)] else s.heap)
  }

  function DoRelease(s: State, t: Tid): (s': State)
    requires t in s.pc && s.pc[t].Free?
    ensures s'.stored == s.stored
  {
    var pc := s.pc[t];
    var s1 := s.(heap := s.heap - {pc.p});
    match pc.ret
    // s_ppInstances := nullptr, then the constructor frees its storage
    case FromRollback(id, p, size) =>
      Goto(s1, t, Free(p, size, ReadHeader, FromConstructor(id))).(table := s.table - {t}, slots := s.slots - {pc.p})
    case FromConstructor(id) => Goto(s1, t, ReturnId(id))
    case FromDestructor(id) => Goto(s1, t, ClearSlot(id))
    case FromCaller => Goto(s1, t, Idle)
  }

  // ---------------------------------------------------------------------------------------------
  // setThreadLocalStorage
  // ---------------------------------------------------------------------------------------------

  function DoLookForTable(s: State, t: Tid): (s': State)
    requires t in s.pc && s.pc[t].FindTable?
    ensures s'.table == s.table && s'.slots == s.slots && s'.stored == s.stored
  {
    var pc := s.pc[t];
    if t in s.table then Goto(s, t, StoreSlot(pc.id, pc.p, pc.size))
    else Goto(s, t, Alloc(TABLE_BYTES, CallMalloc, ToTable(pc.id, pc.p, pc.size)))
  }

  function DoZeroNewTable(s: State, t: Tid): (s': State)
    requires t in s.pc && s.pc[t].ZeroTable? && t in s.table
    ensures s'.stored == s.stored
  {
    var pc := s.pc[t];
    Goto(s, t, PushTable(pc.id, pc.p, pc.size)).(slots := s.slots[s.table[t] := ZeroedTable()])
  }

  /** push_back under the lock; when it throws, the table is freed again. */
  function DoPush(s: State, t: Tid, ok: bool): (s': State)
    requires t in s.pc && s.pc[t].PushTable? && t in s.table
    ensures s'.table == s.table && s'.slots == s.slots && s'.stored == s.stored
  {
    var pc := s.pc[t];
    var q := s.table[t];
    if ok then Goto(s, t, StoreSlot(pc.id, pc.p, pc.size)).(vec := s.vec + [q])
    else Goto(s, t, Free(q, TABLE_BYTES, ReadHeader, FromRollback(pc.id, pc.p, pc.size)))
  }

  /** The unlocked store of the storage into the slot, which completes the constructor of object `n`. */
  function DoStore(s: State, t: Tid, n: ObjId): (s': State)
    requires t in s.pc && s.pc[t].StoreSlot? && t in s.table
    ensures s'.stored == s.stored + {(t, s.pc[t].id)}
  {
    var StoreSlot(id, p, size) := s.pc[t];
    var q := s.table[t];
    Goto(s, t, Idle)
      .(slots := if q in s.slots && id < |s.slots[q]| then s.slots[q := Written(s.slots[q], id, p)] else s.slots,
        objects := s.objects[n := Object(t, id, p, size)],
        ids := s.ids[id := HeldByObject(n)],
        heap := if p in s.heap then s.heap[p := s.heap[p].(owner := ByObject(n))] else s.heap,
        stored := s.stored + {(t, id)})
  }

  /** setThreadLocalStorage(id, nullptr) is rejected before the table is looked at (lldk_thread_local.cpp:38). */
  function DoStoreNull(s: State, t: Tid): (s': State)
    requires t in s.pc && s.pc[t].ClearSlot?
    ensures s'.table == s.table && s'.slots == s.slots && s'.stored == s.stored
  {
    Goto(s, t, ReturnId(s.pc[t].id))
  }

  // ---------------------------------------------------------------------------------------------
  // The destructor
  // ---------------------------------------------------------------------------------------------

  /** Reads the slot; the object is gone from here on and the thread answers for its id and storage. */
  function DoLoadOwnSlot(s: State, t: Tid): (s': State)
    requires t in s.pc && s.pc[t].ReadSlot?
    ensures s'.table == s.table && s'.slots == s.slots && s'.stored == s.stored
  {
    var ReadSlot(n, id) := s.pc[t];
    var p := Get(s, t, id);
    var s1 := s.(objects := s.objects - {n}, ids := s.ids[id := HeldByThread(t)]);
    if p == NULL then Goto(s1, t, ReturnId(id))
    else
      Goto(s1, t, Free(p, if n in s.objects then s.objects[n].size else 0, ReadHeader, FromDestructor(id)))
      .(heap := if p in s.heap then s.heap[p := s.heap[p].(owner := ByThread(t))] else s.heap)
  }

  // ---------------------------------------------------------------------------------------------
  // foreach
  // ---------------------------------------------------------------------------------------------

  function SlotsNow(s: State, id: nat): seq<Ptr> {
    seq(|s.vec|, i requires 0 <= i < |s.vec| => SlotAt(s, s.vec[i], id))
  }

  function DoStartForeach(s: State, t: Tid, id: nat): (s': State)
    requires t in s.pc
    ensures s'.table == s.table && s'.slots == s.slots && s'.stored == s.stored
  {
    Goto(s, t, Examine(Walk(id, s.vec, SlotsNow(s, id), []), 0)).(lock := Some(t))
  }

  /** The first, unsynchronised read of the slot: the null check. */
  function DoLoadSlot(s: State, t: Tid): (s': State)
    requires t in s.pc && s.pc[t].Examine? && s.pc[t].k < |s.vec|
    ensures s'.table == s.table && s'.slots == s.slots && s'.stored == s.stored
  {
    var Examine(w, k) := s.pc[t];
    if SlotAt(s, s.vec[k], w.id) != NULL then Goto(s, t, CallBack(w, k)) else Goto(s, t, Examine(w, k + 1))
  }

  /** The second read, and the callback with what it returned. */
  function DoInvoke(s: State, t: Tid, ret: int): (s': State)
    requires t in s.pc && s.pc[t].CallBack? && s.pc[t].k < |s.vec|
    ensures s'.table == s.table && s'.slots == s.slots && s'.stored == s.stored
  {
    var CallBack(w, k) := s.pc[t];
    var w' := w.(visits := w.visits + [Visit(k, SlotAt(s, s.vec[k], w.id), ret)]);
    if ret != 0 then Goto(s, t, Walked(w', k + 1, -1)).(lock := None) else Goto(s, t, Examine(w', k + 1))
  }

  function DoEndWalk(s: State, t: Tid): (s': State)
    requires t in s.pc && s.pc[t].Examine?
    ensures s'.table == s.table && s'.slots == s.slots && s'.stored == s.stored
  {
    Goto(s, t, Walked(s.pc[t].w, s.pc[t].k, 0)).(lock := None)
  }

  // ---------------------------------------------------------------------------------------------
  // Steps and runs
  // ---------------------------------------------------------------------------------------------

  ghost function Next(s: State, t: Tid, a: Action): (s': State)
    requires Enabled(s, t, a)
    ensures s.stored <= s'.stored
    ensures !a.CountAllocated? && !a.ZeroNewTable? && !a.Release? && !a.Store? ==> s'.table == s.table && s'.slots == s.slots
  {
    match a
    case StartConstruct(size) => Goto(s, t, NewId(size))
    case StartDestroy(n) => Goto(s, t, ReadSlot(n, s.objects[n].id))
    case StartForeach(id) => DoStartForeach(s, t, id)
    case StartAllocate(size) => Goto(s, t, Alloc(size, CallMalloc, ToCaller))
    case StartFree(p) =>
      Goto(s, t, Free(p, s.raw[p], ReadHeader, FromCaller))
      .(raw := s.raw - {p}, heap := if p in s.heap then s.heap[p := s.heap[p].(owner := ByThread(t))] else s.heap)
    case TakeId => DoTakeId(s, t)
    case Malloc(p) => DoMalloc(s, t, p)
    case PutHeader => DoPutHeader(s, t)
    case CountAllocated => DoCountAllocated(s, t)
    case LookForTable => DoLookForTable(s, t)
    case ZeroNewTable => DoZeroNewTable(s, t)
    case Push(ok) => DoPush(s, t, ok)
    case Store(n) => DoStore(s, t, n)
    case TakeHeader => DoTakeHeader(s, t)
    case CountFreed => DoCountFreed(s, t)
    case Release => DoRelease(s, t)
    case GiveIdBack => DoGiveIdBack(s, t)
    case LoadOwnSlot => DoLoadOwnSlot(s, t)
    case StoreNull => DoStoreNull(s, t)
    case LoadSlot => DoLoadSlot(s, t)
    case Invoke(ret) => DoInvoke(s, t, ret)
    case EndWalk => DoEndWalk(s, t)
    case Leave => Goto(s, t, Idle)
  }

  /** Program start: no ids taken, no tables, every thread idle. */
  ghost predicate Initial(s: State) {
    && s.ids == map[] && s.vec == [] && s.lock == None && s.table == map[] && s.slots == map[]
    && s.objects == map[] && s.heap == map[] && s.raw == map[] && s.tally == Tally(0, 0, 0, 0)
    && s.lost == 0 && s.stored == {}
    && forall t :: t in s.pc ==> s.pc[t] == Idle
  }

  datatype Event = Event(t: Tid, a: Action)

  /** `s` is reached from `start` by the steps of `run`, in that order. */
  ghost predicate Reaches(start: State, run: seq<Event>, s: State)
    decreases |run|
  {
    if run == [] then s == start
    else Enabled(start, run[0].t, run[0].a) && Reaches(Next(start, run[0].t, run[0].a), run[1..], s)
  }

  ghost predicate Reachable(s: State) {
    exists start, run :: Initial(start) && Reaches(start, run, s)
  }

  /** No call is in progress. */
  ghost predicate Quiet(s: State) {
    forall t :: t in s.pc ==> s.pc[t] == Idle
  }
}
