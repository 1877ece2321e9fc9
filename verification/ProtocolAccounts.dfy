// Conservation in the registry protocol: ids, and the allocator's tally.
module ProtocolAccounts {
  import opened Bitset
  import opened Sums
  import opened Protocol
  import opened Basics
  import opened ProtocolInvariant
  import opened ProtocolSteps
  import opened ProtocolTables
  import opened ProtocolRuns

  // ---------------------------------------------------------------------------------------------
  // What a call in progress holds
  // ---------------------------------------------------------------------------------------------

  function IdsHeld(pc: PC): nat {
    match pc
    case Alloc(_, _, back) => if back.ToCaller? then 0 else 1
    case FindTable(_, _, _) => 1
    case ZeroTable(_, _, _) => 1
    case PushTable(_, _, _) => 1
    case StoreSlot(_, _, _) => 1
    case Free(_, _, _, ret) => if ret.FromCaller? then 0 else 1
    case ReturnId(_) => 1
    case ClearSlot(_) => 1
    case _ => 0
  }

  /** Blocks counted in and not yet counted out that the call answers for. */
  function BlocksHeld(pc: PC): nat {
    match pc
    case Alloc(_, _, back) => if back.ToTable? then 1 else 0
    case FindTable(_, _, _) => 1
    case ZeroTable(_, _, _) => 2
    case PushTable(_, _, _) => 2
    case StoreSlot(_, _, _) => 1
    case Free(_, _, stage, ret) => (if stage == CallFree then 0 else 1) + if ret.FromRollback? then 1 else 0
    case _ => 0
  }

  function BytesHeld(pc: PC): nat {
    match pc
    case Alloc(_, _, back) => if back.ToTable? then back.size else 0
    case FindTable(_, _, size) => size
    case ZeroTable(_, _, size) => size + TABLE_BYTES
    case PushTable(_, _, size) => size + TABLE_BYTES
    case StoreSlot(_, _, size) => size
    case Free(_, want, stage, ret) => (if stage == CallFree then 0 else want) + if ret.FromRollback? then ret.size else 0
    case _ => 0
  }

  function ObjectBytes(o: Object): nat { o.size }

  function CallerBytes(size: nat): nat { size }

  function Counted(b: Block): nat { if b.counted then 1 else 0 }

  function CountedBytes(b: Block): nat { if b.counted && b.header.Some? then b.header.value else 0 }

  /** Blocks held by live objects, registered tables, direct callers and calls in progress. */
  ghost function BlocksOf(s: State): int {
    |s.objects| + |s.vec| + |s.raw| + SumOver(s.pc, BlocksHeld)
  }

  ghost function BytesOf(s: State): int {
    SumOver(s.objects, ObjectBytes) + TABLE_BYTES * |s.vec| + SumOver(s.raw, CallerBytes) + SumOver(s.pc, BytesHeld)
  }

  ghost function IdsOf(s: State): int {
    |s.objects| + s.lost + SumOver(s.pc, IdsHeld)
  }

  // ---------------------------------------------------------------------------------------------
  // The laws
  // ---------------------------------------------------------------------------------------------

  /** The tally's differences are `blocks` and `bytes`, modulo 2^64. */
  ghost predicate Balanced(y: Tally, blocks: int, bytes: int) {
    && Congruent(y.allocatedCount - y.freedCount, blocks)
    && Congruent(y.allocatedSize - y.freedSize, bytes)
  }

  ghost predicate IdLaw(s: State) {
    |s.ids| == IdsOf(s)
  }

  ghost predicate OwnerLaw(s: State) {
    Balanced(s.tally, BlocksOf(s), BytesOf(s))
  }

  /** Over the heap itself: the blocks counted in and not yet counted out, and the sum of their headers. */
  ghost predicate HeapLaw(s: State) {
    Balanced(s.tally, SumOver(s.heap, Counted), SumOver(s.heap, CountedBytes))
  }

  ghost predicate Accounts(s: State) {
    IdLaw(s) && OwnerLaw(s) && HeapLaw(s)
  }

  lemma BalancedIn(y: Tally, blocks: int, bytes: int, size: nat, y': Tally, blocks': int, bytes': int)
    requires Balanced(y, blocks, bytes)
    requires y' == TallyIn(y, size) && blocks' == blocks + 1 && bytes' == bytes + size
    ensures Balanced(y', blocks', bytes')
  {
    CountedIn(y.allocatedCount, y.freedCount, blocks, 1);
    CountedIn(y.allocatedSize, y.freedSize, bytes, size);
  }

  lemma BalancedOut(y: Tally, blocks: int, bytes: int, size: nat, y': Tally, blocks': int, bytes': int)
    requires Balanced(y, blocks, bytes)
    requires y' == TallyOut(y, size) && blocks' == blocks - 1 && bytes' == bytes - size
    ensures Balanced(y', blocks', bytes')
  {
    CountedOut(y.allocatedCount, y.freedCount, blocks, 1);
    CountedOut(y.allocatedSize, y.freedSize, bytes, size);
  }

  lemma PcSums(s: State, t: Tid, pc: PC)
    requires t in s.pc
    ensures SumOver(s.pc[t := pc], IdsHeld) == SumOver(s.pc, IdsHeld) - IdsHeld(s.pc[t]) + IdsHeld(pc)
    ensures SumOver(s.pc[t := pc], BlocksHeld) == SumOver(s.pc, BlocksHeld) - BlocksHeld(s.pc[t]) + BlocksHeld(pc)
    ensures SumOver(s.pc[t := pc], BytesHeld) == SumOver(s.pc, BytesHeld) - BytesHeld(s.pc[t]) + BytesHeld(pc)
  {
    SumPut(s.pc, t, pc, IdsHeld);
    SumPut(s.pc, t, pc, BlocksHeld);
    SumPut(s.pc, t, pc, BytesHeld);
  }

  lemma DropSize<K, V>(m: map<K, V>, k: K)
    requires k in m
    ensures |m - {k}| == |m| - 1
  {
    assert (m - {k}).Keys == m.Keys - {k};
  }

  // ---------------------------------------------------------------------------------------------
  // Steps that move neither the tally nor a counted block
  // ---------------------------------------------------------------------------------------------

  predicate SamePc(s: State, s': State, t: Tid) {
    t in s.pc && t in s'.pc && s'.pc == s.pc[t := s'.pc[t]]
  }

  /** A step that leaves all accounts as they are. */
  ghost predicate PlainStep(s: State, s': State, t: Tid) {
    && SamePc(s, s', t) && s'.tally == s.tally && s'.objects == s.objects && s'.vec == s.vec && s'.raw == s.raw
    && BlocksHeld(s'.pc[t]) == BlocksHeld(s.pc[t]) && BytesHeld(s'.pc[t]) == BytesHeld(s.pc[t])
    && |s'.ids| - s'.lost - IdsHeld(s'.pc[t]) == |s.ids| - s.lost - IdsHeld(s.pc[t])
    && SumOver(s'.heap, Counted) == SumOver(s.heap, Counted)
    && SumOver(s'.heap, CountedBytes) == SumOver(s.heap, CountedBytes)
  }

  lemma PlainStepSums(s: State, s': State, t: Tid)
    requires PlainStep(s, s', t)
    ensures BlocksOf(s') == BlocksOf(s) && BytesOf(s') == BytesOf(s)
    ensures |s'.ids| - IdsOf(s') == |s.ids| - IdsOf(s)
  {
    PcSums(s, t, s'.pc[t]);
  }

  lemma PlainStepKeeps(s: State, s': State, t: Tid)
    requires Accounts(s) && PlainStep(s, s', t)
    ensures Accounts(s')
  {
    PlainStepSums(s, s', t);
  }

  /** Rewriting a block that is not counted, before and after, does not change the sums over the heap. */
  lemma UncountedBlock(s: State, p: Ptr, b: Block)
    requires !b.counted && (p in s.heap ==> !s.heap[p].counted)
    ensures SumOver(s.heap[p := b], Counted) == SumOver(s.heap, Counted)
    ensures SumOver(s.heap[p := b], CountedBytes) == SumOver(s.heap, CountedBytes)
    ensures p in s.heap ==> SumOver(s.heap - {p}, Counted) == SumOver(s.heap, Counted)
    ensures p in s.heap ==> SumOver(s.heap - {p}, CountedBytes) == SumOver(s.heap, CountedBytes)
  {
    SumPut(s.heap, p, b, Counted);
    SumPut(s.heap, p, b, CountedBytes);
    if p in s.heap {
      SumDrop(s.heap, p, Counted);
      SumDrop(s.heap, p, CountedBytes);
    }
  }

  /** Retagging a block changes no sum. */
  lemma RetaggedBlock(s: State, p: Ptr, o: Owner)
    requires p in s.heap
    ensures SumOver(s.heap[p := s.heap[p].(owner := o)], Counted) == SumOver(s.heap, Counted)
    ensures SumOver(s.heap[p := s.heap[p].(owner := o)], CountedBytes) == SumOver(s.heap, CountedBytes)
  {
    SumPut(s.heap, p, s.heap[p].(owner := o), Counted);
    SumPut(s.heap, p, s.heap[p].(owner := o), CountedBytes);
  }

  lemma StartPlain(s: State, t: Tid, a: Action)
    requires Enabled(s, t, a)
    requires a.StartConstruct? || a.StartDestroy? || a.StartAllocate? || a.Leave?
    ensures PlainStep(s, Next(s, t, a), t)
  {
  }

  lemma MovePlain(s: State, t: Tid, pc: PC)
    requires t in s.pc
    requires BlocksHeld(pc) == BlocksHeld(s.pc[t]) && BytesHeld(pc) == BytesHeld(s.pc[t]) && IdsHeld(pc) == IdsHeld(s.pc[t])
    ensures PlainStep(s, Goto(s, t, pc), t)
  {
  }

  lemma LookPlain(s: State, t: Tid)
    requires t in s.pc && s.pc[t].FindTable?
    ensures PlainStep(s, DoLookForTable(s, t), t)
  {
    var FindTable(id, p, size) := s.pc[t];
    if t in s.table {
      MovePlain(s, t, StoreSlot(id, p, size));
    } else {
      MovePlain(s, t, Alloc(TABLE_BYTES, CallMalloc, ToTable(id, p, size)));
    }
  }

  lemma TakeHeaderPlain(s: State, t: Tid)
    requires t in s.pc && s.pc[t].Free? && s.pc[t].fstage == ReadHeader
    ensures PlainStep(s, DoTakeHeader(s, t), t)
  {
    MovePlain(s, t, DoTakeHeader(s, t).pc[t]);
  }

  lemma ZeroPlain(s: State, t: Tid)
    requires t in s.pc && s.pc[t].ZeroTable? && t in s.table
    ensures PlainStep(s, DoZeroNewTable(s, t), t)
  {
    MovePlain(s, t, DoZeroNewTable(s, t).pc[t]);
  }

  lemma LoadSlotPlain(s: State, t: Tid, w: Walk, k: nat)
    requires t in s.pc && s.pc[t] == Examine(w, k) && k < |s.vec|
    ensures PlainStep(s, DoLoadSlot(s, t), t)
  {
    if SlotAt(s, s.vec[k], w.id) != NULL {
      MovePlain(s, t, CallBack(w, k));
    } else {
      MovePlain(s, t, Examine(w, k + 1));
    }
  }

  lemma UnlockPlain(s: State, t: Tid, pc: PC, lock: Option<Tid>)
    requires t in s.pc
    requires BlocksHeld(pc) == BlocksHeld(s.pc[t]) && BytesHeld(pc) == BytesHeld(s.pc[t]) && IdsHeld(pc) == IdsHeld(s.pc[t])
    ensures PlainStep(s, Goto(s, t, pc).(lock := lock), t)
  {
  }

  lemma InvokeZeroPlain(s: State, t: Tid, w: Walk, k: nat)
    requires t in s.pc && s.pc[t] == CallBack(w, k) && k < |s.vec|
    ensures PlainStep(s, DoInvoke(s, t, 0), t)
  {
    MovePlain(s, t, Examine(w.(visits := w.visits + [Visit(k, SlotAt(s, s.vec[k], w.id), 0)]), k + 1));
  }

  lemma InvokeFailsPlain(s: State, t: Tid, ret: int, w: Walk, k: nat)
    requires t in s.pc && s.pc[t] == CallBack(w, k) && k < |s.vec| && ret != 0
    ensures PlainStep(s, DoInvoke(s, t, ret), t)
  {
    UnlockPlain(s, t, Walked(w.(visits := w.visits + [Visit(k, SlotAt(s, s.vec[k], w.id), ret)]), k + 1, -1), None);
  }

  lemma WalkEndsPlain(s: State, t: Tid, id: nat)
    requires t in s.pc
    ensures s.pc[t] == Idle ==> PlainStep(s, DoStartForeach(s, t, id), t)
    ensures s.pc[t].Examine? ==> PlainStep(s, DoEndWalk(s, t), t)
  {
  }

  lemma PushFailsPlain(s: State, t: Tid)
    requires t in s.pc && s.pc[t].PushTable? && t in s.table
    ensures PlainStep(s, DoPush(s, t, false), t)
  {
    MovePlain(s, t, DoPush(s, t, false).pc[t]);
  }

  lemma TakeIdPlain(s: State, t: Tid)
    requires t in s.pc && s.pc[t].NewId?
    ensures PlainStep(s, DoTakeId(s, t), t)
  {
    LeastFreeFromIsLeast(s.ids.Keys, 0, MAX_INSTANCE_ID);
  }

  lemma GiveIdBackPlain(s: State, t: Tid)
    requires t in s.pc && s.pc[t].ReturnId? && s.pc[t].id in s.ids
    ensures PlainStep(s, DoGiveIdBack(s, t), t)
  {
    DropSize(s.ids, s.pc[t].id);
  }

  lemma MallocPlain(s: State, t: Tid, p: Ptr)
    requires t in s.pc && s.pc[t].Alloc? && p != NULL && p !in s.heap
    ensures PlainStep(s, DoMalloc(s, t, p), t)
  {
    UncountedBlock(s, p, Block(None, false, AllocOwner(t, s.pc[t].back)));
  }

  lemma MallocFailsPlain(s: State, t: Tid)
    requires t in s.pc && s.pc[t].Alloc?
    requires s.pc[t].back.ToConstructor? ==> s.pc[t].back.id in s.ids
    ensures PlainStep(s, DoMalloc(s, t, NULL), t)
  {
    match s.pc[t].back
    case ToConstructor(id) => assert |s.ids[id := Lost]| == |s.ids|;
    case ToTable(id, q, size) => MovePlain(s, t, Free(q, size, ReadHeader, FromConstructor(id)));
    case ToCaller => MovePlain(s, t, Idle);
  }

  lemma PutHeaderPlain(s: State, t: Tid, size: nat, p: Ptr, back: AllocReturn)
    requires t in s.pc && s.pc[t] == Alloc(size, WriteHeader(p), back) && p in s.heap && !s.heap[p].counted
    ensures PlainStep(s, DoPutHeader(s, t), t)
  {
    UncountedBlock(s, p, Block(Some(size), false, AllocOwner(t, back)));
  }

  lemma DropPlain(s: State, t: Tid, pc: PC, p: Ptr)
    requires t in s.pc && p in s.heap && !s.heap[p].counted
    requires BlocksHeld(pc) == BlocksHeld(s.pc[t]) && BytesHeld(pc) == BytesHeld(s.pc[t]) && IdsHeld(pc) == IdsHeld(s.pc[t])
    ensures PlainStep(s, Goto(s.(heap := s.heap - {p}), t, pc), t)
  {
    UncountedBlock(s, p, s.heap[p]);
  }

  lemma ReleasePlain(s: State, t: Tid, p: Ptr, want: nat, ret: FreeReturn)
    requires t in s.pc && s.pc[t] == Free(p, want, CallFree, ret) && p in s.heap && !s.heap[p].counted
    ensures PlainStep(s, DoRelease(s, t), t)
  {
    match ret
    case FromRollback(id, q, size) => DropPlain(s, t, Free(q, size, ReadHeader, FromConstructor(id)), p);
    case FromConstructor(id) => DropPlain(s, t, ReturnId(id), p);
    case FromDestructor(id) => DropPlain(s, t, ClearSlot(id), p);
    case FromCaller => DropPlain(s, t, Idle, p);
  }

  // ---------------------------------------------------------------------------------------------
  // Steps that hand counted blocks and ids over
  // ---------------------------------------------------------------------------------------------

  /** The tally stands still and so do all totals, though the parts may move. */
  ghost predicate SameTotals(s: State, s': State) {
    && s'.tally == s.tally && BlocksOf(s') == BlocksOf(s) && BytesOf(s') == BytesOf(s)
    && |s'.ids| - IdsOf(s') == |s.ids| - IdsOf(s)
    && SumOver(s'.heap, Counted) == SumOver(s.heap, Counted)
    && SumOver(s'.heap, CountedBytes) == SumOver(s.heap, CountedBytes)
  }

  lemma SameTotalsKeeps(s: State, s': State)
    requires Accounts(s) && SameTotals(s, s')
    ensures Accounts(s')
  {
  }

  lemma PushTotals(s: State, t: Tid)
    requires t in s.pc && s.pc[t].PushTable? && t in s.table
    ensures SameTotals(s, DoPush(s, t, true))
  {
    PcSums(s, t, DoPush(s, t, true).pc[t]);
  }

  lemma StoreBlocks(s: State, t: Tid, n: ObjId)
    requires t in s.pc && s.pc[t].StoreSlot? && t in s.table && n !in s.objects && s.pc[t].id in s.ids
    ensures BlocksOf(DoStore(s, t, n)) == BlocksOf(s)
    ensures |DoStore(s, t, n).ids| - IdsOf(DoStore(s, t, n)) == |s.ids| - IdsOf(s)
  {
    PcSums(s, t, Idle);
  }

  lemma StoreBytes(s: State, t: Tid, n: ObjId)
    requires t in s.pc && s.pc[t].StoreSlot? && t in s.table && n !in s.objects
    ensures BytesOf(DoStore(s, t, n)) == BytesOf(s)
  {
    SumPut(s.pc, t, Idle, BytesHeld);
    SumPut(s.objects, n, Object(t, s.pc[t].id, s.pc[t].p, s.pc[t].size), ObjectBytes);
  }

  lemma StoreTotals(s: State, t: Tid, n: ObjId)
    requires t in s.pc && s.pc[t].StoreSlot? && t in s.table && n !in s.objects
    requires s.pc[t].id in s.ids && s.pc[t].p in s.heap
    ensures SameTotals(s, DoStore(s, t, n))
  {
    StoreBlocks(s, t, n);
    StoreBytes(s, t, n);
    RetaggedBlock(s, s.pc[t].p, ByObject(n));
  }

  lemma DestroyTotals(s: State, t: Tid, n: ObjId, id: nat)
    requires t in s.pc && s.pc[t] == ReadSlot(n, id) && n in s.objects && id in s.ids
    requires Get(s, t, id) != NULL && Get(s, t, id) in s.heap
    ensures SameTotals(s, DoLoadOwnSlot(s, t))
  {
    var p := Get(s, t, id);
    PcSums(s, t, Free(p, s.objects[n].size, ReadHeader, FromDestructor(id)));
    SumDrop(s.objects, n, ObjectBytes);
    DropSize(s.objects, n);
    RetaggedBlock(s, p, ByThread(t));
    assert |s.ids[id := HeldByThread(t)]| == |s.ids|;
  }

  lemma StartFreeBlocks(s: State, t: Tid, p: Ptr)
    requires Enabled(s, t, StartFree(p))
    ensures BlocksOf(Next(s, t, StartFree(p))) == BlocksOf(s)
    ensures |Next(s, t, StartFree(p)).ids| - IdsOf(Next(s, t, StartFree(p))) == |s.ids| - IdsOf(s)
  {
    PcSums(s, t, Free(p, s.raw[p], ReadHeader, FromCaller));
    DropSize(s.raw, p);
  }

  lemma StartFreeBytes(s: State, t: Tid, p: Ptr)
    requires Enabled(s, t, StartFree(p))
    ensures BytesOf(Next(s, t, StartFree(p))) == BytesOf(s)
  {
    SumPut(s.pc, t, Free(p, s.raw[p], ReadHeader, FromCaller), BytesHeld);
    SumDrop(s.raw, p, CallerBytes);
  }

  lemma StartFreeTotals(s: State, t: Tid, p: Ptr)
    requires Enabled(s, t, StartFree(p)) && p in s.heap
    ensures SameTotals(s, Next(s, t, StartFree(p)))
  {
    StartFreeBlocks(s, t, p);
    StartFreeBytes(s, t, p);
    RetaggedBlock(s, p, ByThread(t));
  }

  // ---------------------------------------------------------------------------------------------
  // The two steps that change the tally
  // ---------------------------------------------------------------------------------------------

  /** All totals move by the same amounts. */
  ghost predicate Moves(s: State, s': State, blocks: int, bytes: int) {
    && BlocksOf(s') == BlocksOf(s) + blocks && BytesOf(s') == BytesOf(s) + bytes
    && |s'.ids| - IdsOf(s') == |s.ids| - IdsOf(s)
    && SumOver(s'.heap, Counted) == SumOver(s.heap, Counted) + blocks
    && SumOver(s'.heap, CountedBytes) == SumOver(s.heap, CountedBytes) + bytes
  }

  lemma GainKeeps(s: State, s': State, size: nat)
    requires Accounts(s) && Moves(s, s', 1, size) && s'.tally == TallyIn(s.tally, size)
    ensures Accounts(s')
  {
    BalancedIn(s.tally, BlocksOf(s), BytesOf(s), size, s'.tally, BlocksOf(s'), BytesOf(s'));
    BalancedIn(s.tally, SumOver(s.heap, Counted), SumOver(s.heap, CountedBytes), size,
      s'.tally, SumOver(s'.heap, Counted), SumOver(s'.heap, CountedBytes));
  }

  lemma LossKeeps(s: State, s': State, size: nat)
    requires Accounts(s) && Moves(s, s', -1, 0 - size) && s'.tally == TallyOut(s.tally, size)
    ensures Accounts(s')
  {
    BalancedOut(s.tally, BlocksOf(s), BytesOf(s), size, s'.tally, BlocksOf(s'), BytesOf(s'));
    BalancedOut(s.tally, SumOver(s.heap, Counted), SumOver(s.heap, CountedBytes), size,
      s'.tally, SumOver(s'.heap, Counted), SumOver(s'.heap, CountedBytes));
  }

  lemma CountedBlock(s: State, p: Ptr, b: Block)
    requires p in s.heap && b.header.Some? && s.heap[p].counted != b.counted && s.heap[p].header == b.header
    ensures SumOver(s.heap[p := b], Counted) == SumOver(s.heap, Counted) + if b.counted then 1 else -1
    ensures SumOver(s.heap[p := b], CountedBytes) == SumOver(s.heap, CountedBytes) + if b.counted then b.header.value else -(b.header.value as int)
  {
    SumPut(s.heap, p, b, Counted);
    SumPut(s.heap, p, b, CountedBytes);
  }

  lemma CountStorageMoves(s: State, t: Tid, size: nat, p: Ptr, id: nat)
    requires t in s.pc && s.pc[t] == Alloc(size, CountIn(p), ToConstructor(id)) && p in s.heap && s.heap[p] == Block(Some(size), false, ByThread(t))
    ensures Moves(s, DoCountAllocated(s, t), 1, size)
  {
    CountedBlock(s, p, Block(Some(size), true, ByThread(t)));
    PcSums(s, t, FindTable(id, p, size));
  }

  lemma CountTableMoves(s: State, t: Tid, size: nat, p: Ptr, id: nat, q: Ptr, n: nat)
    requires t in s.pc && s.pc[t] == Alloc(size, CountIn(p), ToTable(id, q, n)) && size == TABLE_BYTES
    requires p in s.heap && s.heap[p] == Block(Some(size), false, TableOf(t))
    ensures Moves(s, DoCountAllocated(s, t), 1, size)
  {
    CountedBlock(s, p, Block(Some(size), true, TableOf(t)));
    PcSums(s, t, ZeroTable(id, q, n));
  }

  lemma CountRawMoves(s: State, t: Tid, size: nat, p: Ptr)
    requires t in s.pc && s.pc[t] == Alloc(size, CountIn(p), ToCaller) && p !in s.raw
    requires p in s.heap && s.heap[p] == Block(Some(size), false, ByThread(t))
    ensures Moves(s, DoCountAllocated(s, t), 1, size)
  {
    CountedBlock(s, p, Block(Some(size), true, ByCaller));
    PcSums(s, t, Idle);
    SumPut(s.raw, p, size, CallerBytes);
  }

  lemma CountFreedHolds(s: State, t: Tid, p: Ptr, want: nat, ret: FreeReturn)
    requires t in s.pc && s.pc[t] == Free(p, want, CountOut(want), ret)
    ensures BlocksOf(DoCountFreed(s, t)) == BlocksOf(s) - 1 && BytesOf(DoCountFreed(s, t)) == BytesOf(s) - want
    ensures |DoCountFreed(s, t).ids| - IdsOf(DoCountFreed(s, t)) == |s.ids| - IdsOf(s)
  {
    PcSums(s, t, Free(p, want, CallFree, ret));
  }

  lemma CountFreedMoves(s: State, t: Tid, p: Ptr, want: nat, ret: FreeReturn)
    requires t in s.pc && s.pc[t] == Free(p, want, CountOut(want), ret) && p in s.heap && s.heap[p].header == Some(want) && s.heap[p].counted
    ensures Moves(s, DoCountFreed(s, t), -1, 0 - want)
  {
    CountFreedHolds(s, t, p, want, ret);
    CountedBlock(s, p, s.heap[p].(counted := false));
  }

  // ---------------------------------------------------------------------------------------------
  // Every step, every run
  // ---------------------------------------------------------------------------------------------

  lemma InitialAccounts(s: State)
    requires Initial(s)
    ensures Accounts(s)
  {
    QuietSums(s);
    SumZero(s.objects, ObjectBytes);
    SumZero(s.raw, CallerBytes);
    SumZero(s.heap, Counted);
    SumZero(s.heap, CountedBytes);
    CongruentByMultiple(0, 0, 0);
  }

  /** Idle threads hold nothing. */
  lemma QuietSums(s: State)
    requires Quiet(s)
    ensures SumOver(s.pc, IdsHeld) == 0 && SumOver(s.pc, BlocksHeld) == 0 && SumOver(s.pc, BytesHeld) == 0
  {
    forall t | t in s.pc ensures IdsHeld(s.pc[t]) == 0 && BlocksHeld(s.pc[t]) == 0 && BytesHeld(s.pc[t]) == 0 {
      assert s.pc[t] == Idle;
    }
    SumZero(s.pc, IdsHeld);
    SumZero(s.pc, BlocksHeld);
    SumZero(s.pc, BytesHeld);
  }

  ghost predicate Plain(a: Action) {
    !a.Push? && !a.Store? && !a.LoadOwnSlot? && !a.StartFree? && !a.CountAllocated? && !a.CountFreed?
  }

  lemma WalkPlain(s: State, t: Tid, a: Action)
    requires Enabled(s, t, a) && (a.StartForeach? || a.LoadSlot? || a.Invoke? || a.EndWalk?)
    ensures PlainStep(s, Next(s, t, a), t)
  {
    match a
    case StartForeach(id) => WalkEndsPlain(s, t, id);
    case EndWalk => WalkEndsPlain(s, t, 0);
    case LoadSlot => LoadSlotPlain(s, t, s.pc[t].w, s.pc[t].k);
    case Invoke(ret) =>
      if ret == 0 {
        InvokeZeroPlain(s, t, s.pc[t].w, s.pc[t].k);
      } else {
        InvokeFailsPlain(s, t, ret, s.pc[t].w, s.pc[t].k);
      }
  }

  lemma PlainActions(s: State, t: Tid, a: Action)
    requires Enabled(s, t, a) && ThreadOk(s, t) && Plain(a)
    ensures PlainStep(s, Next(s, t, a), t)
  {
    match a
    case StartConstruct(_) => StartPlain(s, t, a);
    case StartDestroy(_) => StartPlain(s, t, a);
    case StartAllocate(_) => StartPlain(s, t, a);
    case Leave => StartPlain(s, t, a);
    case StoreNull => MovePlain(s, t, ReturnId(s.pc[t].id));
    case TakeId => TakeIdPlain(s, t);
    case GiveIdBack => GiveIdBackPlain(s, t);
    case Malloc(p) =>
      if p == NULL {
        MallocFailsPlain(s, t);
      } else {
        MallocPlain(s, t, p);
      }
    case PutHeader => PutHeaderPlain(s, t, s.pc[t].size, s.pc[t].stage.p, s.pc[t].back);
    case TakeHeader => TakeHeaderPlain(s, t);
    case Release => ReleasePlain(s, t, s.pc[t].p, s.pc[t].want, s.pc[t].ret);
    case LookForTable => LookPlain(s, t);
    case ZeroNewTable => ZeroPlain(s, t);
    case StartForeach(_) => WalkPlain(s, t, a);
    case LoadSlot => WalkPlain(s, t, a);
    case Invoke(_) => WalkPlain(s, t, a);
    case EndWalk => WalkPlain(s, t, a);
  }

  lemma HandOverAccounts(s: State, t: Tid, a: Action)
    requires Structure(s) && Accounts(s) && Enabled(s, t, a) && (a.Push? || a.Store? || a.LoadOwnSlot? || a.StartFree?)
    ensures Accounts(Next(s, t, a))
  {
    assert ThreadOk(s, t);
    match a {
      case Push(ok) =>
        if ok {
          PushTotals(s, t);
        } else {
          PushFailsPlain(s, t);
          PlainStepKeeps(s, Next(s, t, a), t);
          return;
        }
      case Store(n) => StoreTotals(s, t, n);
      case LoadOwnSlot =>
        DestroyTakesBlock(s, t);
        assert ObjectOk(s, s.pc[t].n);
        DestroyTotals(s, t, s.pc[t].n, s.pc[t].id);
      case StartFree(p) => StartFreeTotals(s, t, p);
    }
    SameTotalsKeeps(s, Next(s, t, a));
  }

  lemma CountAllocatedMoves(s: State, t: Tid)
    requires RawOk(s) && t in s.pc && s.pc[t].Alloc? && s.pc[t].stage.CountIn?
    requires AllocOk(s, t, s.pc[t].size, s.pc[t].stage, s.pc[t].back)
    ensures Moves(s, DoCountAllocated(s, t), 1, s.pc[t].size)
  {
    var Alloc(size, stage, back) := s.pc[t];
    match back {
      case ToConstructor(id) => CountStorageMoves(s, t, size, stage.p, id);
      case ToTable(id, q, n) => CountTableMoves(s, t, size, stage.p, id, q, n);
      case ToCaller => CountRawMoves(s, t, size, stage.p);
    }
  }

  lemma CountAllocatedAccounts(s: State, t: Tid)
    requires Accounts(s) && RawOk(s) && t in s.pc && s.pc[t].Alloc? && s.pc[t].stage.CountIn?
    requires AllocOk(s, t, s.pc[t].size, s.pc[t].stage, s.pc[t].back)
    ensures Accounts(DoCountAllocated(s, t))
  {
    var s' := DoCountAllocated(s, t);
    CountAllocatedMoves(s, t);
    assert s'.tally == TallyIn(s.tally, s.pc[t].size);
    GainKeeps(s, s', s.pc[t].size);
  }

  lemma CountFreedAccounts(s: State, t: Tid)
    requires Accounts(s) && t in s.pc && s.pc[t].Free? && s.pc[t].fstage.CountOut?
    requires FreeOk(s, t, s.pc[t].p, s.pc[t].want, s.pc[t].fstage, s.pc[t].ret)
    ensures Accounts(DoCountFreed(s, t))
  {
    var s' := DoCountFreed(s, t);
    CountFreedMoves(s, t, s.pc[t].p, s.pc[t].want, s.pc[t].ret);
    assert s'.tally == TallyOut(s.tally, s.pc[t].want);
    LossKeeps(s, s', s.pc[t].want);
  }

  lemma AccountsStep(s: State, t: Tid, a: Action)
    requires Structure(s) && Accounts(s) && Enabled(s, t, a)
    ensures Accounts(Next(s, t, a))
  {
    assert ThreadOk(s, t);
    if a.CountAllocated? {
      CountAllocatedAccounts(s, t);
    } else if a.CountFreed? {
      CountFreedAccounts(s, t);
    } else if Plain(a) {
      PlainActions(s, t, a);
      PlainStepKeeps(s, Next(s, t, a), t);
    } else {
      HandOverAccounts(s, t, a);
    }
  }

  lemma {:induction false} RunAccounts(start: State, run: seq<Event>, s: State)
    requires Structure(start) && Accounts(start) && Reaches(start, run, s)
    ensures Accounts(s)
    decreases |run|
  {
    if run != [] {
      StepKeeps(start, run[0].t, run[0].a);
      AccountsStep(start, run[0].t, run[0].a);
      RunAccounts(Next(start, run[0].t, run[0].a), run[1..], s);
    }
  }

  lemma ReachableAccounts(s: State)
    requires Reachable(s)
    ensures Accounts(s)
  {
    var start, run :| Initial(start) && Reaches(start, run, s);
    InitialStructure(start);
    InitialAccounts(start);
    RunAccounts(start, run, s);
  }
}
