// What the registry protocol guarantees in every reachable state, despite reused ids and stale slots.
module ProtocolTheorems {
  import opened Bitset
  import opened Sums
  import opened Protocol
  import opened Basics
  import opened ProtocolInvariant
  import opened ProtocolTables
  import opened ProtocolRuns
  import opened ProtocolAccounts

  // ---------------------------------------------------------------------------------------------
  // Objects and their storage
  // ---------------------------------------------------------------------------------------------

  /** get() on the constructing thread returns the object's own storage, which is live and of the asked size. */
  lemma GetReturnsOwnStorage(s: State, n: ObjId)
    requires Reachable(s) && n in s.objects
    ensures
      var o := s.objects[n];
      && o.owner in s.table
      && Get(s, o.owner, o.id) == o.block != NULL
      && o.block in s.heap && s.heap[o.block].header == Some(o.size)
  {
    ReachableStructure(s);
    assert ObjectOk(s, n);
  }

  /** Live objects share neither an id nor a block, and their ids are taken in the bitset. */
  lemma LiveObjectsAreApart(s: State, m: ObjId, n: ObjId)
    requires Reachable(s) && m in s.objects && n in s.objects && m != n
    ensures s.objects[m].id != s.objects[n].id && {s.objects[m].id, s.objects[n].id} <= s.ids.Keys
    ensures s.objects[m].block != s.objects[n].block
  {
    ReachableStructure(s);
    assert ObjectOk(s, m) && ObjectOk(s, n);
  }

  /** The block a thread is freeing is live until the call to free, so no block is freed twice; it is no live
      object's storage, no thread's registered table and no direct caller's block; and the header read is the size
      the block was asked with. */
  lemma EachBlockFreedOnce(s: State, t: Tid)
    requires Reachable(s) && t in s.pc && s.pc[t].Free?
    ensures var p := s.pc[t].p; p in s.heap && s.heap[p].header == Some(s.pc[t].want)
    ensures forall n :: n in s.objects ==> s.objects[n].block != s.pc[t].p
    ensures forall u :: Registered(s, u) ==> s.table[u] != s.pc[t].p
    ensures s.pc[t].p !in s.raw
    ensures forall u :: u in s.pc && u != t && s.pc[u].Free? ==> s.pc[u].p != s.pc[t].p
  {
    ReachableStructure(s);
    assert ThreadOk(s, t);
    forall n | n in s.objects ensures s.objects[n].block != s.pc[t].p {
      assert ObjectOk(s, n);
    }
    forall u | Registered(s, u) ensures s.table[u] != s.pc[t].p {
      assert TableOk(s, u);
    }
    forall u | u in s.pc && u != t && s.pc[u].Free? ensures s.pc[u].p != s.pc[t].p {
      assert ThreadOk(s, u);
    }
  }

  // ---------------------------------------------------------------------------------------------
  // Ids
  // ---------------------------------------------------------------------------------------------

  /** With no call in progress the set bits are the live objects plus the constructor runs that lost their id. */
  lemma IdAccounting(s: State)
    requires Reachable(s) && Quiet(s)
    ensures |s.ids| == |s.objects| + s.lost
  {
    ReachableAccounts(s);
    QuietSums(s);
  }

  /** newInstanceId fails exactly when all 2048 bits are set, and otherwise gives out the least id not in use. */
  lemma NewIdFailsWhenFull(s: State)
    requires Reachable(s)
    ensures FreshId(s) == 2048 <==> |s.ids| == 2048
    ensures FreshId(s) != 2048 ==> FreshId(s) < 2048 && FreshId(s) !in s.ids
    ensures forall id :: 0 <= id < FreshId(s) ==> id in s.ids
  {
    ReachableStructure(s);
    assert |s.ids.Keys| == |s.ids|;
    LeastFreeIsLimit(s.ids.Keys, MAX_INSTANCE_ID);
    LeastFreeFromIsLeast(s.ids.Keys, 0, MAX_INSTANCE_ID);
  }

  // ---------------------------------------------------------------------------------------------
  // The tally
  // ---------------------------------------------------------------------------------------------

  /** At every step of every interleaving: allocated minus freed is the number, and the header sum, of the blocks
      counted in and not yet counted out. */
  lemma TallyIsConserved(s: State)
    requires Reachable(s)
    ensures Balanced(s.tally, SumOver(s.heap, Counted), SumOver(s.heap, CountedBytes))
  {
    ReachableAccounts(s);
  }

  /** Across both files: with no call in progress the tally counts the live objects, the registered tables and the
      blocks direct callers still hold. */
  lemma TallyCountsObjectsAndTables(s: State)
    requires Reachable(s) && Quiet(s)
    ensures Congruent(s.tally.allocatedCount - s.tally.freedCount, |s.objects| + |s.vec| + |s.raw|)
  {
    OwnersBalance(s);
    SumZeroBlocks(s);
  }

  lemma OwnersBalance(s: State)
    requires Reachable(s)
    ensures Congruent(s.tally.allocatedCount - s.tally.freedCount, BlocksOf(s))
    ensures Congruent(s.tally.allocatedSize - s.tally.freedSize, BytesOf(s))
  {
    ReachableAccounts(s);
  }

  lemma SumZeroBlocks(s: State)
    requires Quiet(s)
    ensures BlocksOf(s) == |s.objects| + |s.vec| + |s.raw|
  {
    QuietSums(s);
  }

  lemma SumZeroBytes(s: State)
    requires Quiet(s)
    ensures BytesOf(s) == SumOver(s.objects, ObjectBytes) + TABLE_BYTES * |s.vec| + SumOver(s.raw, CallerBytes)
  {
    QuietSums(s);
  }

  // ---------------------------------------------------------------------------------------------
  // The vector of tables
  // ---------------------------------------------------------------------------------------------

  /** With no call in progress the vector holds every thread's table, each once, and nothing else. */
  lemma VectorHoldsEachTableOnce(s: State)
    requires Reachable(s) && Quiet(s)
    ensures forall i, j :: 0 <= i < j < |s.vec| ==> s.vec[i] != s.vec[j]
    ensures forall q :: q in s.vec <==> exists t :: t in s.table && s.table[t] == q
    ensures forall t, u :: t in s.table && u in s.table && t != u ==> s.table[t] != s.table[u]
  {
    ReachableStructure(s);
    forall t | t in s.table ensures s.table[t] in s.vec && s.heap[s.table[t]].owner == TableOf(t) {
      assert TableOk(s, t);
      assert s.pc[t] == Idle;
    }
    forall q | q in s.vec ensures exists t :: t in s.table && s.table[t] == q {
      assert Listed(s, q);
      assert s.table[s.heap[q].owner.t] == q;
    }
  }

  /** A constructor that fails on push_back is left without a table, and the vector never held it: once the table is
      freed the constructor goes on to free its storage. */
  lemma FailedTableLeavesNone(s: State, t: Tid)
    requires Reachable(s) && Enabled(s, t, Release) && s.pc[t].ret.FromRollback?
    ensures t in s.table && s.pc[t].p == s.table[t] && s.pc[t].p !in s.vec
    ensures
      var s' := Next(s, t, Release);
      && s'.table == s.table - {t} && s'.vec == s.vec && s.pc[t].p !in s'.heap
      && s'.pc[t] == Free(s.pc[t].ret.p, s.pc[t].ret.size, ReadHeader, FromConstructor(s.pc[t].ret.id))
  {
    ReachableStructure(s);
    assert ThreadOk(s, t);
    forall i | 0 <= i < |s.vec| ensures s.vec[i] != s.pc[t].p {
      assert Listed(s, s.vec[i]);
    }
  }

  /** A thread whose table could not be allocated still has none, and the vector is as it was. */
  lemma FailedAllocationLeavesNone(s: State, t: Tid)
    requires Reachable(s) && Enabled(s, t, Malloc(NULL)) && s.pc[t].back.ToTable?
    ensures
      var s' := Next(s, t, Malloc(NULL));
      && t !in s'.table && s'.table == s.table && s'.vec == s.vec
      && s'.pc[t] == Free(s.pc[t].back.p, s.pc[t].back.size, ReadHeader, FromConstructor(s.pc[t].back.id))
  {
    ReachableStructure(s);
    assert ThreadOk(s, t);
  }

  /** The store of a constructor changes the calling thread's slot for its id, and no other slot of any thread. */
  lemma StoreWritesOneSlot(s: State, t: Tid, n: ObjId, u: Tid, id: nat)
    requires Reachable(s) && Enabled(s, t, Store(n))
    ensures Get(Next(s, t, Store(n)), u, id) == if u == t && id == s.pc[t].id then s.pc[t].p else Get(s, u, id)
  {
    ReachableStructure(s);
    assert ThreadOk(s, t);
    StoreChangesOneSlot(s, t, n, u, id);
  }

  /** No step writes null over a filled slot: the destructor's null store is rejected, so even a destroyed object's
      slot keeps its old pointer. */
  lemma SlotNeverCleared(s: State, t: Tid, a: Action, u: Tid, id: nat)
    requires Reachable(s) && Enabled(s, t, a) && Registered(s, u) && id < MAX_INSTANCE_ID && Get(s, u, id) != NULL
    ensures Registered(Next(s, t, a), u) && Get(Next(s, t, a), u, id) != NULL
  {
    ReachableStructure(s);
    StepKeeps(s, t, a);
    assert (u, id) in s.stored;
  }

  lemma ReleaseOthers(s: State, t: Tid, u: Tid, id: nat)
    requires TablesOk(s) && t in s.pc && s.pc[t].Free? && ThreadOk(s, t) && u != t && u in s.table
    ensures Get(DoRelease(s, t), u, id) == Get(s, u, id)
  {
    assert TableOk(s, u);
  }

  lemma NewTableOthers(s: State, t: Tid, u: Tid, id: nat)
    requires TablesOk(s) && t in s.pc && ThreadOk(s, t) && u != t && u in s.table
    ensures s.pc[t].ZeroTable? && t in s.table ==> Get(DoZeroNewTable(s, t), u, id) == Get(s, u, id)
    ensures s.pc[t].Alloc? && s.pc[t].stage.CountIn? ==> Get(DoCountAllocated(s, t), u, id) == Get(s, u, id)
  {
    assert TableOk(s, u);
  }

  /** No step of a thread changes what another thread reads from its slots. */
  lemma OthersReadTheSame(s: State, t: Tid, a: Action, u: Tid, id: nat)
    requires Reachable(s) && Enabled(s, t, a) && u != t && Registered(s, u)
    ensures Get(Next(s, t, a), u, id) == Get(s, u, id)
  {
    ReachableStructure(s);
    assert ThreadOk(s, t);
    match a
    case CountAllocated => NewTableOthers(s, t, u, id);
    case ZeroNewTable => NewTableOthers(s, t, u, id);
    case Release => ReleaseOthers(s, t, u, id);
    case Store(n) => StoreChangesOneSlot(s, t, n, u, id);
    case _ =>
  }

  // ---------------------------------------------------------------------------------------------
  // foreach
  // ---------------------------------------------------------------------------------------------

  /** The vector does not change while a foreach walks it. */
  lemma WalkSeesFixedVector(s: State, t: Tid)
    requires Reachable(s) && t in s.pc && (s.pc[t].Examine? || s.pc[t].CallBack?)
    ensures s.lock == Some(t) && s.vec == s.pc[t].w.order
  {
    ReachableStructure(s);
    assert ThreadOk(s, t);
  }

  /** The pointer about to be passed to the callback is not null, although the slot is read a second time. */
  lemma CallbackNeverGetsNull(s: State, t: Tid, ret: int)
    requires Reachable(s) && Enabled(s, t, Invoke(ret))
    ensures SlotAt(s, s.vec[s.pc[t].k], s.pc[t].w.id) != NULL
  {
    ReachableStructure(s);
    assert ThreadOk(s, t);
  }

  /** A foreach that returned 0 called back once, in registration order, for every slot filled when it took the
      lock; one that returned -1 did so up to the callback that returned nonzero, and stopped there. */
  lemma ForeachVisitsFilledSlots(s: State, t: Tid)
    requires Reachable(s) && t in s.pc && s.pc[t].Walked?
    ensures WalkDone(s.pc[t].w, s.pc[t].k, s.pc[t].rc)
    ensures
      var visits := s.pc[t].w.visits;
      && (forall i :: 0 <= i < |visits| ==> visits[i].storage != NULL)
      && (forall i, j :: 0 <= i < j < |visits| ==> visits[i].index < visits[j].index)
      && (s.pc[t].rc == 0 ==> forall i :: 0 <= i < |visits| ==> visits[i].ret == 0)
      && (s.pc[t].rc != 0 ==> s.pc[t].rc == -1 && visits != [] && visits[|visits| - 1].ret != 0)
      && (forall i :: 0 <= i < |visits| - 1 ==> visits[i].ret == 0)
  {
    ReachableStructure(s);
    assert ThreadOk(s, t);
    var visits := s.pc[t].w.visits;
    if s.pc[t].rc != 0 {
      forall i | 0 <= i < |visits| - 1 ensures visits[i].ret == 0 {
        assert visits[..|visits| - 1][i] == visits[i];
      }
    }
  }

  /** None of the slots that were filled when the lock was taken is left out by a foreach that returned 0. */
  lemma ForeachLeavesNoneOut(s: State, t: Tid, j: nat) returns (i: nat)
    requires Reachable(s) && t in s.pc && s.pc[t].Walked? && s.pc[t].rc == 0
    requires j < |s.pc[t].w.before| && s.pc[t].w.before[j] != NULL
    ensures i < |s.pc[t].w.visits| && s.pc[t].w.visits[i].index == j
  {
    ReachableStructure(s);
    assert ThreadOk(s, t);
    var w := s.pc[t].w;
    assert Visited(w, j);
    i :| 0 <= i < |w.visits| && w.visits[i].index == j;
  }

  // ---------------------------------------------------------------------------------------------
  // Stale slots, exactly
  // ---------------------------------------------------------------------------------------------

  /** Whether a thread ever stored under an id decides what its slot holds. */
  lemma SlotFilledIffStored(s: State, t: Tid, id: nat)
    requires Reachable(s) && Registered(s, t) && id < MAX_INSTANCE_ID
    ensures Get(s, t, id) != NULL <==> (t, id) in s.stored
  {
    ReachableStructure(s);
  }

  /** The indices at which a foreach on `id` would call back if it ran now. */
  ghost function FilledIndices(s: State, id: nat): set<nat> {
    set i: nat | i < |s.vec| && SlotAt(s, s.vec[i], id) != NULL
  }

  /** foreach on a live object calls back for the object's own storage only, if and only if no thread but its
      constructor's ever stored under the object's id: ids are reused and slots are never cleared. */
  lemma ForeachSeesOnlyOwnStorage(s: State, n: ObjId) returns (i: nat)
    requires Reachable(s) && n in s.objects
    ensures i < |s.vec| && s.objects[n].owner in s.table && s.vec[i] == s.table[s.objects[n].owner]
    ensures FilledIndices(s, s.objects[n].id) == {i}
            <==> forall u :: u != s.objects[n].owner ==> (u, s.objects[n].id) !in s.stored
  {
    ReachableStructure(s);
    assert ObjectOk(s, n);
    var o := s.objects[n];
    assert TableOk(s, o.owner);
    i :| 0 <= i < |s.vec| && s.vec[i] == s.table[o.owner];
    assert i in FilledIndices(s, o.id);
    if forall u :: u != o.owner ==> (u, o.id) !in s.stored {
      forall j | j in FilledIndices(s, o.id) ensures j == i {
        FilledWasStored(s, j, o.id);
      }
    }
    if FilledIndices(s, o.id) == {i} {
      forall u | u != o.owner ensures (u, o.id) !in s.stored {
        if Registered(s, u) {
          OtherSlotEmpty(s, u, o.id, o.owner, i);
        }
      }
    }
  }

  lemma OtherSlotEmpty(s: State, u: Tid, id: nat, t: Tid, i: nat)
    requires Structure(s) && Registered(s, u) && t in s.table && u != t && id < MAX_INSTANCE_ID
    requires i < |s.vec| && s.vec[i] == s.table[t] && FilledIndices(s, id) == {i}
    ensures (u, id) !in s.stored
  {
    assert TableOk(s, u) && TableOk(s, t);
    var k :| 0 <= k < |s.vec| && s.vec[k] == s.table[u];
    assert k !in FilledIndices(s, id);
    assert Get(s, u, id) == NULL;
  }

  lemma FilledWasStored(s: State, j: nat, id: nat)
    requires Structure(s) && j in FilledIndices(s, id) && id < MAX_INSTANCE_ID
    ensures exists u :: u in s.table && s.table[u] == s.vec[j] && (u, id) in s.stored
  {
    assert Listed(s, s.vec[j]);
    var u := s.heap[s.vec[j]].owner.t;
    assert Get(s, u, id) != NULL;
  }
}
