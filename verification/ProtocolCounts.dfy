// What a whole run counts: the four fields of the tally, the ids it loses, and the room its tables have.
module ProtocolCounts {
  import opened Bitset
  import opened Sums
  import opened Protocol
  import opened Basics
  import opened ProtocolInvariant
  import opened ProtocolRuns
  import opened ProtocolAccounts
  import opened ProtocolTheorems

  // ---------------------------------------------------------------------------------------------
  // The tally, field by field
  // ---------------------------------------------------------------------------------------------

  /** How many blocks the run counts in. */
  function BlocksIn(run: seq<Event>): nat {
    if run == [] then 0 else (if run[0].a.CountAllocated? then 1 else 0) + BlocksIn(run[1..])
  }

  /** How many it counts out. */
  function BlocksOut(run: seq<Event>): nat {
    if run == [] then 0 else (if run[0].a.CountFreed? then 1 else 0) + BlocksOut(run[1..])
  }

  /** What one step counts in and out. */
  ghost function StepIn(s: State, t: Tid, a: Action): nat
    requires Enabled(s, t, a)
  {
    if a.CountAllocated? then HeaderOf(s, s.pc[t].stage.p) else 0
  }

  ghost function StepOut(s: State, t: Tid, a: Action): nat
    requires Enabled(s, t, a)
  {
    if a.CountFreed? then HeaderOf(s, s.pc[t].p) else 0
  }

  /** The sum of the headers of the blocks the run counts in, each as it is at that step. */
  ghost function BytesIn(s: State, run: seq<Event>): nat
    decreases |run|
  {
    if run == [] || !Enabled(s, run[0].t, run[0].a) then 0
    else StepIn(s, run[0].t, run[0].a) + BytesIn(Next(s, run[0].t, run[0].a), run[1..])
  }

  ghost function BytesOut(s: State, run: seq<Event>): nat
    decreases |run|
  {
    if run == [] || !Enabled(s, run[0].t, run[0].a) then 0
    else StepOut(s, run[0].t, run[0].a) + BytesOut(Next(s, run[0].t, run[0].a), run[1..])
  }

  lemma CountInTally(s: State, t: Tid)
    requires Structure(s) && Enabled(s, t, CountAllocated)
    ensures
      var y := s.tally;
      Next(s, t, CountAllocated).tally
      == Tally(Wrap(y.allocatedSize + HeaderOf(s, s.pc[t].stage.p)), Wrap(y.allocatedCount + 1), y.freedSize, y.freedCount)
  {
    assert ThreadOk(s, t);
    assert HeaderOf(s, s.pc[t].stage.p) == s.pc[t].size;
  }

  lemma CountOutTally(s: State, t: Tid)
    requires Structure(s) && Enabled(s, t, CountFreed)
    ensures
      var y := s.tally;
      Next(s, t, CountFreed).tally
      == Tally(y.allocatedSize, y.allocatedCount, Wrap(y.freedSize + HeaderOf(s, s.pc[t].p)), Wrap(y.freedCount + 1))
  {
    assert ThreadOk(s, t);
    assert HeaderOf(s, s.pc[t].p) == s.pc[t].fstage.size;
  }

  predicate StartsOrWalks(a: Action) {
    Starts(a) || a.StartForeach? || a.LoadSlot? || a.Invoke? || a.EndWalk?
  }

  predicate Starts(a: Action) {
    a.StartConstruct? || a.StartDestroy? || a.StartAllocate? || a.Leave?
  }

  predicate TouchesNoBlock(a: Action) {
    a.TakeId? || a.LookForTable? || a.ZeroNewTable? || a.Push? || a.TakeHeader? || a.GiveIdBack? || a.StoreNull?
  }

  predicate WritesBlock(a: Action) {
    a.StartFree? || a.Malloc? || a.PutHeader? || a.Release? || a.Store? || a.LoadOwnSlot?
  }

  /** What most steps leave as it was. */
  predicate SameBooks(s: State, s': State) {
    s'.tally == s.tally && s'.lost == s.lost
  }

  lemma InvokeSame(s: State, t: Tid, ret: int)
    requires t in s.pc && s.pc[t].CallBack? && s.pc[t].k < |s.vec|
    ensures SameBooks(s, DoInvoke(s, t, ret)) && DoInvoke(s, t, ret).heap == s.heap && DoInvoke(s, t, ret).table == s.table
  {
  }

  lemma StartsOrWalksSame(s: State, t: Tid, a: Action)
    requires Enabled(s, t, a) && StartsOrWalks(a)
    ensures SameBooks(s, Next(s, t, a)) && Next(s, t, a).heap == s.heap && Next(s, t, a).table == s.table
  {
    if Starts(a) {
      StartsSame(s, t, a);
    } else if a.Invoke? {
      InvokeSame(s, t, a.ret);
    }
  }

  lemma StartsSame(s: State, t: Tid, a: Action)
    requires Enabled(s, t, a) && Starts(a)
    ensures SameBooks(s, Next(s, t, a)) && Next(s, t, a).heap == s.heap && Next(s, t, a).table == s.table
  {
  }

  lemma TouchesNoBlockSame(s: State, t: Tid, a: Action)
    requires Enabled(s, t, a) && TouchesNoBlock(a)
    ensures SameBooks(s, Next(s, t, a)) && Next(s, t, a).heap == s.heap && Next(s, t, a).table == s.table
  {
    if a.TakeId? || a.GiveIdBack? || a.StoreNull? {
      IdsSame(s, t, a);
    }
  }

  lemma IdsSame(s: State, t: Tid, a: Action)
    requires Enabled(s, t, a) && (a.TakeId? || a.GiveIdBack? || a.StoreNull?)
    ensures SameBooks(s, Next(s, t, a)) && Next(s, t, a).heap == s.heap && Next(s, t, a).table == s.table
  {
  }

  lemma MallocSame(s: State, t: Tid, p: Ptr)
    requires t in s.pc && s.pc[t].Alloc?
    ensures DoMalloc(s, t, p).tally == s.tally
    ensures DoMalloc(s, t, p).lost == s.lost + if p == NULL && s.pc[t].back.ToConstructor? then 1 else 0
  {
    if p == NULL {
      NoMemorySame(s, t);
    }
  }

  lemma NoMemorySame(s: State, t: Tid)
    requires t in s.pc && s.pc[t].Alloc?
    ensures DoMalloc(s, t, NULL).tally == s.tally
    ensures DoMalloc(s, t, NULL).lost == s.lost + if s.pc[t].back.ToConstructor? then 1 else 0
  {
  }

  lemma ReleaseSame(s: State, t: Tid)
    requires t in s.pc && s.pc[t].Free?
    ensures SameBooks(s, DoRelease(s, t))
  {
  }

  lemma OwnerSame(s: State, t: Tid, a: Action)
    requires Enabled(s, t, a) && (a.StartFree? || a.PutHeader? || a.Store? || a.LoadOwnSlot?)
    ensures SameBooks(s, Next(s, t, a))
  {
  }

  lemma WritesBlockSame(s: State, t: Tid, a: Action)
    requires Enabled(s, t, a) && WritesBlock(a)
    ensures Next(s, t, a).tally == s.tally
    ensures Next(s, t, a).lost == s.lost + if FailsStorage(s, t, a) then 1 else 0
  {
    if a.Malloc? {
      MallocSame(s, t, a.p);
    } else if a.Release? {
      ReleaseSame(s, t);
    } else {
      OwnerSame(s, t, a);
    }
  }

  lemma OtherStepsCountNothing(s: State, t: Tid, a: Action)
    requires Enabled(s, t, a) && !a.CountAllocated? && !a.CountFreed?
    ensures Next(s, t, a).tally == s.tally
  {
    if StartsOrWalks(a) {
      StartsOrWalksSame(s, t, a);
    } else if TouchesNoBlock(a) {
      TouchesNoBlockSame(s, t, a);
    } else {
      WritesBlockSame(s, t, a);
    }
  }

  predicate InRange(y: Tally) {
    && 0 <= y.allocatedSize < WORD && 0 <= y.allocatedCount < WORD
    && 0 <= y.freedSize < WORD && 0 <= y.freedCount < WORD
  }

  /** The tally after counting in and out this many blocks and bytes; `carries` is how often each field wrapped. */
  predicate Grown(y: Tally, y': Tally, blocksIn: nat, bytesIn: nat, blocksOut: nat, bytesOut: nat, carries: Tally) {
    && y'.allocatedCount == y.allocatedCount + blocksIn - WORD * carries.allocatedCount
    && y'.allocatedSize == y.allocatedSize + bytesIn - WORD * carries.allocatedSize
    && y'.freedCount == y.freedCount + blocksOut - WORD * carries.freedCount
    && y'.freedSize == y.freedSize + bytesOut - WORD * carries.freedSize
  }

  lemma InGrows(y: Tally, size: nat) returns (carries: Tally)
    requires InRange(y)
    ensures
      var y' := Tally(Wrap(y.allocatedSize + size), Wrap(y.allocatedCount + 1), y.freedSize, y.freedCount);
      InRange(y') && Grown(y, y', 1, size, 0, 0, carries)
  {
    var count := WrapCarries(y.allocatedCount + 1);
    var bytes := WrapCarries(y.allocatedSize + size);
    carries := Tally(bytes, count, 0, 0);
  }

  lemma OutGrows(y: Tally, size: nat) returns (carries: Tally)
    requires InRange(y)
    ensures
      var y' := Tally(y.allocatedSize, y.allocatedCount, Wrap(y.freedSize + size), Wrap(y.freedCount + 1));
      InRange(y') && Grown(y, y', 0, 0, 1, size, carries)
  {
    var count := WrapCarries(y.freedCount + 1);
    var bytes := WrapCarries(y.freedSize + size);
    carries := Tally(0, 0, bytes, count);
  }

  /** What a step adds to the tally. */
  ghost predicate StepAdds(s: State, t: Tid, a: Action, carries: Tally)
    requires Enabled(s, t, a)
  {
    && InRange(Next(s, t, a).tally)
    && Grown(s.tally, Next(s, t, a).tally, if a.CountAllocated? then 1 else 0, StepIn(s, t, a),
             if a.CountFreed? then 1 else 0, StepOut(s, t, a), carries)
  }

  lemma CountInGrows(s: State, t: Tid) returns (carries: Tally)
    requires Structure(s) && Enabled(s, t, CountAllocated) && InRange(s.tally)
    ensures StepAdds(s, t, CountAllocated, carries)
  {
    CountInTally(s, t);
    carries := InGrows(s.tally, HeaderOf(s, s.pc[t].stage.p));
  }

  lemma CountOutGrows(s: State, t: Tid) returns (carries: Tally)
    requires Structure(s) && Enabled(s, t, CountFreed) && InRange(s.tally)
    ensures StepAdds(s, t, CountFreed, carries)
  {
    CountOutTally(s, t);
    carries := OutGrows(s.tally, HeaderOf(s, s.pc[t].p));
  }

  lemma StepGrows(s: State, t: Tid, a: Action) returns (carries: Tally)
    requires Structure(s) && Enabled(s, t, a) && InRange(s.tally)
    ensures StepAdds(s, t, a, carries)
  {
    match a {
      case CountAllocated => carries := CountInGrows(s, t);
      case CountFreed => carries := CountOutGrows(s, t);
      case _ =>
        OtherStepsCountNothing(s, t, a);
        carries := Tally(0, 0, 0, 0);
    }
  }

  lemma {:induction false} RunTally(start: State, run: seq<Event>, s: State) returns (carries: Tally)
    requires Structure(start) && InRange(start.tally) && Reaches(start, run, s)
    ensures InRange(s.tally)
    ensures Grown(start.tally, s.tally, BlocksIn(run), BytesIn(start, run), BlocksOut(run), BytesOut(start, run), carries)
    decreases |run|
  {
    carries := Tally(0, 0, 0, 0);
    if run != [] {
      var (t, a) := (run[0].t, run[0].a);
      StepKeeps(start, t, a);
      var first := StepGrows(start, t, a);
      var rest := RunTally(Next(start, t, a), run[1..], s);
      carries := Tally(first.allocatedSize + rest.allocatedSize, first.allocatedCount + rest.allocatedCount,
        first.freedSize + rest.freedSize, first.freedCount + rest.freedCount);
    }
  }

  /** Over any run, the allocated fields of the tally are the number and the header sum of the blocks counted in, and
      the freed fields those of the blocks counted out, as 64-bit words. */
  lemma TallyCountsRun(start: State, run: seq<Event>, s: State)
    requires Initial(start) && Reaches(start, run, s)
    ensures s.tally.allocatedCount == Wrap(BlocksIn(run)) && s.tally.allocatedSize == Wrap(BytesIn(start, run))
    ensures s.tally.freedCount == Wrap(BlocksOut(run)) && s.tally.freedSize == Wrap(BytesOut(start, run))
  {
    InitialStructure(start);
    var carries := RunTally(start, run, s);
    WrappedTo(s.tally.allocatedCount, BlocksIn(run), carries.allocatedCount);
    WrappedTo(s.tally.allocatedSize, BytesIn(start, run), carries.allocatedSize);
    WrappedTo(s.tally.freedCount, BlocksOut(run), carries.freedCount);
    WrappedTo(s.tally.freedSize, BytesOut(start, run), carries.freedSize);
  }

  // ---------------------------------------------------------------------------------------------
  // Lost ids
  // ---------------------------------------------------------------------------------------------

  /** How many constructors of the run could not allocate their storage. */
  ghost function FailedStorage(s: State, run: seq<Event>): nat
    decreases |run|
  {
    if run == [] || !Enabled(s, run[0].t, run[0].a) then 0
    else
      (if FailsStorage(s, run[0].t, run[0].a) then 1 else 0)
      + FailedStorage(Next(s, run[0].t, run[0].a), run[1..])
  }

  ghost predicate FailsStorage(s: State, t: Tid, a: Action)
    requires Enabled(s, t, a)
  {
    a == Malloc(NULL) && s.pc[t].back.ToConstructor?
  }

  lemma StepLoses(s: State, t: Tid, a: Action)
    requires Enabled(s, t, a)
    ensures Next(s, t, a).lost == s.lost + if FailsStorage(s, t, a) then 1 else 0
  {
    if StartsOrWalks(a) {
      StartsOrWalksSame(s, t, a);
    } else if TouchesNoBlock(a) {
      TouchesNoBlockSame(s, t, a);
    } else if WritesBlock(a) {
      WritesBlockSame(s, t, a);
    }
  }

  lemma {:induction false} LostIsFailedStorage(start: State, run: seq<Event>, s: State)
    requires Reaches(start, run, s)
    ensures s.lost == start.lost + FailedStorage(start, run)
    decreases |run|
  {
    if run != [] {
      StepLoses(start, run[0].t, run[0].a);
      LostIsFailedStorage(Next(start, run[0].t, run[0].a), run[1..], s);
    }
  }

  /** With no call in progress the set bits are the live objects plus the constructors of the run that could not
      allocate their storage. */
  lemma IdsAreObjectsAndFailures(start: State, run: seq<Event>, s: State)
    requires Initial(start) && Reaches(start, run, s) && Quiet(s)
    ensures |s.ids| == |s.objects| + FailedStorage(start, run)
  {
    LostIsFailedStorage(start, run, s);
    IdAccounting(s);
  }

  // ---------------------------------------------------------------------------------------------
  // Room for every slot
  // ---------------------------------------------------------------------------------------------

  ghost predicate TablesHaveRoom(s: State) {
    forall u :: u in s.table ==> HasRoom(s, u)
  }

  predicate HasRoom(s: State, u: Tid)
    requires u in s.table
  {
    s.table[u] in s.heap && s.heap[s.table[u]].header == Some(8 * 2048)
  }

  /** A step that writes block `p` only. */
  lemma RoomKept(s: State, s': State, p: Ptr)
    requires TablesHaveRoom(s) && s'.table == s.table
    requires forall q :: q in s.heap && q != p ==> q in s'.heap && s'.heap[q] == s.heap[q]
    requires p in s.heap && s.heap[p].header.Some? ==> p in s'.heap && s'.heap[p].header == s.heap[p].header
    ensures TablesHaveRoom(s')
  {
    forall u | u in s'.table ensures HasRoom(s', u) {
      assert HasRoom(s, u);
    }
  }

  lemma CountInKeepsRoom(s: State, t: Tid)
    requires Structure(s) && TablesHaveRoom(s) && Enabled(s, t, CountAllocated)
    ensures TablesHaveRoom(DoCountAllocated(s, t))
  {
    assert ThreadOk(s, t);
    var s' := DoCountAllocated(s, t);
    RoomKept(s, s'.(table := s.table), s.pc[t].stage.p);
    forall u | u in s'.table ensures HasRoom(s', u) {
      assert u in s.table ==> HasRoom(s'.(table := s.table), u);
    }
  }

  lemma ReleaseKeepsRoom(s: State, t: Tid)
    requires Structure(s) && TablesHaveRoom(s) && Enabled(s, t, Release)
    ensures TablesHaveRoom(DoRelease(s, t))
  {
    assert ThreadOk(s, t);
    var s' := DoRelease(s, t);
    forall u | u in s'.table ensures HasRoom(s', u) {
      assert TableOk(s, u) && HasRoom(s, u);
    }
  }

  lemma MallocKeepsRoom(s: State, t: Tid, p: Ptr)
    requires TablesHaveRoom(s) && t in s.pc && s.pc[t].Alloc? && p !in s.heap
    ensures TablesHaveRoom(DoMalloc(s, t, p))
  {
    RoomKept(s, DoMalloc(s, t, p), p);
  }

  lemma PutHeaderKeepsRoom(s: State, t: Tid)
    requires TablesHaveRoom(s) && t in s.pc && s.pc[t].Alloc? && s.pc[t].stage.WriteHeader? && ThreadOk(s, t)
    ensures TablesHaveRoom(DoPutHeader(s, t))
  {
    RoomKept(s, DoPutHeader(s, t), s.pc[t].stage.p);
  }

  lemma WriterKeepsRoom(s: State, t: Tid, a: Action)
    requires Structure(s) && TablesHaveRoom(s) && Enabled(s, t, a) && WritesBlock(a) && !a.Release?
    ensures TablesHaveRoom(Next(s, t, a))
  {
    assert ThreadOk(s, t);
    match a
    case StartFree(p) => RoomKept(s, Next(s, t, a), p);
    case Malloc(p) => MallocKeepsRoom(s, t, p);
    case PutHeader => PutHeaderKeepsRoom(s, t);
    case Store(n) => RoomKept(s, DoStore(s, t, n), s.pc[t].p);
    case LoadOwnSlot => RoomKept(s, DoLoadOwnSlot(s, t), Get(s, t, s.pc[t].id));
  }

  lemma StepKeepsRoom(s: State, t: Tid, a: Action)
    requires Structure(s) && TablesHaveRoom(s) && Enabled(s, t, a)
    ensures TablesHaveRoom(Next(s, t, a))
  {
    if a.CountAllocated? {
      CountInKeepsRoom(s, t);
    } else if a.Release? {
      ReleaseKeepsRoom(s, t);
    } else if a.CountFreed? {
      assert ThreadOk(s, t);
      RoomKept(s, DoCountFreed(s, t), s.pc[t].p);
    } else if WritesBlock(a) {
      WriterKeepsRoom(s, t, a);
    } else {
      if StartsOrWalks(a) {
        StartsOrWalksSame(s, t, a);
      } else {
        TouchesNoBlockSame(s, t, a);
      }
      RoomKept(s, Next(s, t, a), NULL);
    }
  }

  lemma {:induction false} RunKeepsRoom(start: State, run: seq<Event>, s: State)
    requires Structure(start) && TablesHaveRoom(start) && Reaches(start, run, s)
    ensures TablesHaveRoom(s)
    decreases |run|
  {
    if run != [] {
      StepKeeps(start, run[0].t, run[0].a);
      StepKeepsRoom(start, run[0].t, run[0].a);
      RunKeepsRoom(Next(start, run[0].t, run[0].a), run[1..], s);
    }
  }

  lemma ReachableRoom(s: State)
    requires Reachable(s)
    ensures TablesHaveRoom(s)
  {
    var start, run :| Initial(start) && Reaches(start, run, s);
    InitialStructure(start);
    RunKeepsRoom(start, run, s);
  }

  /** A registered table has 2048 slots and its block exactly the 8 bytes each of them needs, so a store under any id
      lies inside the block. */
  lemma TableFitsItsSlots(s: State, t: Tid)
    requires Reachable(s) && Registered(s, t)
    ensures s.table[t] in s.slots && |s.slots[s.table[t]]| == 2048
    ensures s.table[t] in s.heap && s.heap[s.table[t]].header == Some(8 * |s.slots[s.table[t]]|)
  {
    ReachableStructure(s);
    ReachableRoom(s);
    assert TableOk(s, t) && HasRoom(s, t);
  }

  /** Eight bytes for each slot of each of the tables. */
  ghost function SlotBytes(s: State, tables: seq<Ptr>): nat {
    if tables == [] then 0
    else (if tables[0] in s.slots then 8 * |s.slots[tables[0]]| else 0) + SlotBytes(s, tables[1..])
  }

  lemma {:induction false} SlotBytesOfFullTables(s: State, tables: seq<Ptr>)
    requires forall i :: 0 <= i < |tables| ==> tables[i] in s.slots && |s.slots[tables[i]]| == 2048
    ensures SlotBytes(s, tables) == TABLE_BYTES * |tables|
  {
    if tables != [] {
      assert forall i :: 0 <= i < |tables[1..]| ==> tables[1..][i] == tables[i + 1];
      SlotBytesOfFullTables(s, tables[1..]);
    }
  }

  /** With no call in progress the tally's bytes are every object's size, 8 bytes for each slot of each table, and what
      direct callers asked for and still hold. */
  lemma TallyCountsBytes(s: State)
    requires Reachable(s) && Quiet(s)
    ensures Congruent(s.tally.allocatedSize - s.tally.freedSize,
                      SumOver(s.objects, ObjectBytes) + SlotBytes(s, s.vec) + SumOver(s.raw, CallerBytes))
  {
    OwnersBalance(s);
    SumZeroBytes(s);
    ReachableStructure(s);
    forall i | 0 <= i < |s.vec| ensures s.vec[i] in s.slots && |s.slots[s.vec[i]]| == 2048 {
      assert Listed(s, s.vec[i]);
      assert TableOk(s, s.heap[s.vec[i]].owner.t);
    }
    SlotBytesOfFullTables(s, s.vec);
  }
}
