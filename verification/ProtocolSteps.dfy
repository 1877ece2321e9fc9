// The steps of the registry protocol that touch nothing shared but the thread's own blocks, its ids and the lock.
module ProtocolSteps {
  import opened Bitset
  import opened Sums
  import opened Protocol
  import opened Basics
  import opened ProtocolInvariant

  /** What a local step relies on besides the condition at its program counter. */
  predicate Here(s: State, t: Tid) {
    Shape(s) && t in s.pc && (t in s.table ==> TableOk(s, t))
  }

  // ---------------------------------------------------------------------------------------------
  // Shapes of local steps
  // ---------------------------------------------------------------------------------------------

  predicate SamePending(s: State, t: Tid, pc: PC)
    requires t in s.pc
  {
    t in s.table ==> (Pending(pc) <==> Pending(s.pc[t]))
  }

  lemma MoveLocal(s: State, t: Tid, pc: PC, lock: Option<Tid>)
    requires Here(s, t) && SamePending(s, t, pc)
    requires lock == s.lock || s.lock == None || s.lock == Some(t)
    requires lock != Some(t) ==> lock == s.lock || lock == None
    requires lock == Some(t) ==> pc.Examine? || pc.CallBack?
    ensures LocalStep(s, Goto(s, t, pc).(lock := lock), t)
  {
  }

  lemma BlockLocal(s: State, t: Tid, pc: PC, p: Ptr, b: Block, tally: Tally)
    requires Here(s, t) && SamePending(s, t, pc) && s.lock != Some(t)
    requires p != NULL && (p in s.heap ==> Mine(s.heap[p].owner, t))
    requires t in s.table && s.table[t] == p ==> b.owner == TableOf(t)
    ensures LocalStep(s, Goto(s, t, pc).(heap := s.heap[p := b], tally := tally), t)
  {
  }

  lemma UnblockLocal(s: State, t: Tid, pc: PC, p: Ptr)
    requires Here(s, t) && SamePending(s, t, pc) && s.lock != Some(t)
    requires p in s.heap && s.heap[p].owner == ByThread(t)
    ensures LocalStep(s, Goto(s, t, pc).(heap := s.heap - {p}), t)
  {
  }

  lemma IdLocal(s: State, t: Tid, pc: PC, id: nat, h: Holder, lost: nat)
    requires Here(s, t) && SamePending(s, t, pc) && s.lock != Some(t)
    requires id < MAX_INSTANCE_ID && (id in s.ids ==> s.ids[id] == HeldByThread(t))
    ensures LocalStep(s, Goto(s, t, pc).(ids := s.ids[id := h], lost := lost), t)
  {
  }

  lemma UnidLocal(s: State, t: Tid, pc: PC, id: nat)
    requires Here(s, t) && SamePending(s, t, pc) && s.lock != Some(t)
    requires id in s.ids ==> s.ids[id] == HeldByThread(t)
    ensures LocalStep(s, Goto(s, t, pc).(ids := s.ids - {id}), t)
  {
  }

  /** A thread that does not walk does not hold the lock. */
  lemma LockElsewhere(s: State, t: Tid)
    requires Shape(s) && t in s.pc && !s.pc[t].Examine? && !s.pc[t].CallBack?
    ensures s.lock != Some(t)
  {
  }

  // ---------------------------------------------------------------------------------------------
  // The steps
  // ---------------------------------------------------------------------------------------------

  lemma TakeNoIdLocal(s: State, t: Tid)
    requires Here(s, t) && s.pc[t].NewId? && FreshId(s) == MAX_INSTANCE_ID
    ensures LocalStep(s, DoTakeId(s, t), t) && ThreadOk(DoTakeId(s, t), t)
  {
    LockElsewhere(s, t);
    MoveLocal(s, t, Idle, s.lock);
  }

  lemma TakeIdLocal(s: State, t: Tid)
    requires Here(s, t) && s.pc[t].NewId? && FreshId(s) != MAX_INSTANCE_ID
    ensures LocalStep(s, DoTakeId(s, t), t) && ThreadOk(DoTakeId(s, t), t)
  {
    var id := FreshId(s);
    LeastFreeFromIsLeast(s.ids.Keys, 0, MAX_INSTANCE_ID);
    LockElsewhere(s, t);
    IdLocal(s, t, Alloc(s.pc[t].size, CallMalloc, ToConstructor(id)), id, HeldByThread(t), s.lost);
  }

  lemma GiveIdBackLocal(s: State, t: Tid)
    requires Here(s, t) && s.pc[t].ReturnId? && Holds(s, t, s.pc[t].id)
    ensures LocalStep(s, DoGiveIdBack(s, t), t) && ThreadOk(DoGiveIdBack(s, t), t)
  {
    LockElsewhere(s, t);
    UnidLocal(s, t, Idle, s.pc[t].id);
  }

  lemma MallocLocal(s: State, t: Tid, p: Ptr)
    requires Here(s, t) && s.pc[t].Alloc? && AllocOk(s, t, s.pc[t].size, CallMalloc, s.pc[t].back)
    requires p !in s.heap && p != NULL
    ensures LocalStep(s, DoMalloc(s, t, p), t) && ThreadOk(DoMalloc(s, t, p), t)
  {
    var pc := s.pc[t].(stage := WriteHeader(p));
    var b := Block(None, false, AllocOwner(t, s.pc[t].back));
    LockElsewhere(s, t);
    BlockLocal(s, t, pc, p, b, s.tally);
    assert AllocOk(DoMalloc(s, t, p), t, pc.size, pc.stage, pc.back);
  }

  lemma StorageFailsLocal(s: State, t: Tid)
    requires Here(s, t) && s.pc[t].Alloc? && AllocOk(s, t, s.pc[t].size, CallMalloc, s.pc[t].back)
    requires s.pc[t].back.ToConstructor?
    ensures LocalStep(s, DoMalloc(s, t, NULL), t) && ThreadOk(DoMalloc(s, t, NULL), t)
  {
    LockElsewhere(s, t);
    IdLocal(s, t, Idle, s.pc[t].back.id, Lost, s.lost + 1);
  }

  lemma TableFailsLocal(s: State, t: Tid)
    requires Here(s, t) && s.pc[t].Alloc? && AllocOk(s, t, s.pc[t].size, CallMalloc, s.pc[t].back)
    requires s.pc[t].back.ToTable?
    ensures LocalStep(s, DoMalloc(s, t, NULL), t) && ThreadOk(DoMalloc(s, t, NULL), t)
  {
    var ToTable(id, q, size) := s.pc[t].back;
    LockElsewhere(s, t);
    MoveLocal(s, t, Free(q, size, ReadHeader, FromConstructor(id)), s.lock);
    assert FreeOk(DoMalloc(s, t, NULL), t, q, size, ReadHeader, FromConstructor(id));
  }

  lemma CallerFailsLocal(s: State, t: Tid)
    requires Here(s, t) && s.pc[t].Alloc? && s.pc[t].back.ToCaller?
    ensures LocalStep(s, DoMalloc(s, t, NULL), t) && ThreadOk(DoMalloc(s, t, NULL), t)
  {
    LockElsewhere(s, t);
    MoveLocal(s, t, Idle, s.lock);
  }

  lemma PutHeaderLocal(s: State, t: Tid)
    requires Here(s, t) && s.pc[t].Alloc? && s.pc[t].stage.WriteHeader?
    requires AllocOk(s, t, s.pc[t].size, s.pc[t].stage, s.pc[t].back)
    ensures LocalStep(s, DoPutHeader(s, t), t) && ThreadOk(DoPutHeader(s, t), t)
  {
    var pc := s.pc[t];
    var p := pc.stage.p;
    LockElsewhere(s, t);
    BlockLocal(s, t, pc.(stage := CountIn(p)), p, Block(Some(pc.size), false, AllocOwner(t, pc.back)), s.tally);
    assert AllocOk(DoPutHeader(s, t), t, pc.size, CountIn(p), pc.back);
  }

  lemma CountConstructorLocal(s: State, t: Tid)
    requires Here(s, t) && s.pc[t].Alloc? && s.pc[t].stage.CountIn? && s.pc[t].back.ToConstructor?
    requires AllocOk(s, t, s.pc[t].size, s.pc[t].stage, s.pc[t].back)
    ensures LocalStep(s, DoCountAllocated(s, t), t) && ThreadOk(DoCountAllocated(s, t), t)
  {
    var pc := s.pc[t];
    var p := pc.stage.p;
    LockElsewhere(s, t);
    BlockLocal(s, t, FindTable(pc.back.id, p, pc.size), p, Block(Some(pc.size), true, ByThread(t)), DoCountAllocated(s, t).tally);
  }

  lemma TakeHeaderLocal(s: State, t: Tid)
    requires Here(s, t) && s.pc[t].Free? && s.pc[t].fstage == ReadHeader
    requires FreeOk(s, t, s.pc[t].p, s.pc[t].want, ReadHeader, s.pc[t].ret)
    ensures LocalStep(s, DoTakeHeader(s, t), t) && ThreadOk(DoTakeHeader(s, t), t)
  {
    var pc := s.pc[t];
    LockElsewhere(s, t);
    MoveLocal(s, t, pc.(fstage := CountOut(pc.want)), s.lock);
    assert FreeOk(DoTakeHeader(s, t), t, pc.p, pc.want, CountOut(pc.want), pc.ret);
  }

  lemma CountFreedLocal(s: State, t: Tid)
    requires Here(s, t) && s.pc[t].Free? && s.pc[t].fstage.CountOut?
    requires FreeOk(s, t, s.pc[t].p, s.pc[t].want, s.pc[t].fstage, s.pc[t].ret)
    ensures LocalStep(s, DoCountFreed(s, t), t) && ThreadOk(DoCountFreed(s, t), t)
  {
    var pc := s.pc[t];
    LockElsewhere(s, t);
    BlockLocal(s, t, pc.(fstage := CallFree), pc.p, s.heap[pc.p].(counted := false), DoCountFreed(s, t).tally);
    assert FreeOk(DoCountFreed(s, t), t, pc.p, pc.want, CallFree, pc.ret);
  }

  lemma ReleaseLocal(s: State, t: Tid)
    requires Here(s, t) && s.pc[t].Free? && !s.pc[t].ret.FromRollback?
    requires FreeOk(s, t, s.pc[t].p, s.pc[t].want, CallFree, s.pc[t].ret)
    ensures LocalStep(s, DoRelease(s, t), t) && ThreadOk(DoRelease(s, t), t)
  {
    var pc := s.pc[t];
    LockElsewhere(s, t);
    UnblockLocal(s, t, DoRelease(s, t).pc[t], pc.p);
  }

  lemma LookForTableLocal(s: State, t: Tid)
    requires Here(s, t) && s.pc[t].FindTable? && ThreadOk(s, t)
    ensures LocalStep(s, DoLookForTable(s, t), t) && ThreadOk(DoLookForTable(s, t), t)
  {
    LockElsewhere(s, t);
    MoveLocal(s, t, DoLookForTable(s, t).pc[t], s.lock);
  }

  // foreach

  lemma StartForeachLocal(s: State, t: Tid, id: nat)
    requires Here(s, t) && s.pc[t] == Idle && s.lock == None && id < MAX_INSTANCE_ID
    ensures LocalStep(s, DoStartForeach(s, t, id), t) && ThreadOk(DoStartForeach(s, t, id), t)
  {
    var w := Walk(id, s.vec, SlotsNow(s, id), []);
    MoveLocal(s, t, Examine(w, 0), Some(t));
    assert WalkOk(s, w, 0);
    SameSlotsWalk(s, DoStartForeach(s, t, id), w, 0);
  }

  lemma FairSkip(w: Walk, k: nat)
    requires Fair(w, k) && k < |w.order| && w.before[k] == NULL
    ensures Fair(w, k + 1)
  {
  }

  /** One more callback keeps the visits in order and covers one more index. */
  lemma FairVisit(w: Walk, k: nat, v: Visit)
    requires Fair(w, k) && k < |w.order| && v.index == k && v.storage != NULL
    ensures Fair(w.(visits := w.visits + [v]), k + 1)
  {
    var w' := w.(visits := w.visits + [v]);
    forall j | 0 <= j < k + 1 && w'.before[j] != NULL ensures Visited(w', j) {
      if j == k {
        assert w'.visits[|w.visits|].index == k;
      } else {
        var i :| 0 <= i < |w.visits| && w.visits[i].index == j;
        assert w'.visits[i].index == j;
      }
    }
  }

  lemma LastVisit(w: Walk, k: nat, v: Visit)
    requires Fair(w, k) && k < |w.order| && v.index == k && v.storage != NULL && AllReturnedZero(w.visits) && v.ret != 0
    ensures WalkDone(w.(visits := w.visits + [v]), k + 1, -1)
  {
    FairVisit(w, k, v);
    assert (w.visits + [v])[..|w.visits|] == w.visits;
  }

  lemma SameSlotsWalk(s: State, s': State, w: Walk, k: nat)
    requires WalkOk(s, w, k) && s'.vec == s.vec && s'.slots == s.slots
    ensures WalkOk(s', w, k)
  {
  }

  /** The walk goes on from `k` with the visits it has in `w'`. */
  lemma WalkAdvances(s: State, s': State, w: Walk, w': Walk, k: nat)
    requires WalkOk(s, w, k) && s'.vec == s.vec && s'.slots == s.slots
    requires w' == w.(visits := w'.visits) && Fair(w', k + 1) && AllReturnedZero(w'.visits)
    ensures WalkOk(s', w', k + 1)
  {
  }

  lemma NullSkipped(s: State, s': State, w: Walk, k: nat)
    requires WalkOk(s, w, k) && k < |s.vec| && SlotAt(s, s.vec[k], w.id) == NULL && s'.vec == s.vec && s'.slots == s.slots
    ensures WalkOk(s', w, k + 1)
  {
    FairSkip(w, k);
    WalkAdvances(s, s', w, w, k);
  }

  lemma LoadNullLocal(s: State, t: Tid, w: Walk, k: nat)
    requires Here(s, t) && s.pc[t] == Examine(w, k) && k < |s.vec| && s.lock == Some(t) && WalkOk(s, w, k)
    requires SlotAt(s, s.vec[k], w.id) == NULL
    ensures LocalStep(s, DoLoadSlot(s, t), t) && ThreadOk(DoLoadSlot(s, t), t)
  {
    var s' := Goto(s, t, Examine(w, k + 1));
    NullSkipped(s, s', w, k);
    WalkingOk(s', t, w, k + 1);
    MoveLocal(s, t, Examine(w, k + 1), s.lock);
    assert DoLoadSlot(s, t) == s';
  }

  lemma WalkingOk(s: State, t: Tid, w: Walk, k: nat)
    requires t in s.pc && s.pc[t] == Examine(w, k) && s.lock == Some(t) && WalkOk(s, w, k)
    ensures ThreadOk(s, t)
  {
  }

  lemma LoadFilledLocal(s: State, t: Tid, w: Walk, k: nat)
    requires Here(s, t) && s.pc[t] == Examine(w, k) && k < |s.vec| && s.lock == Some(t) && WalkOk(s, w, k)
    requires SlotAt(s, s.vec[k], w.id) != NULL
    ensures LocalStep(s, DoLoadSlot(s, t), t) && ThreadOk(DoLoadSlot(s, t), t)
  {
    MoveLocal(s, t, CallBack(w, k), s.lock);
    SameSlotsWalk(s, DoLoadSlot(s, t), w, k);
  }

  lemma InvokeZeroLocal(s: State, t: Tid, w: Walk, k: nat)
    requires Here(s, t) && s.pc[t] == CallBack(w, k) && k < |s.vec| && s.lock == Some(t) && WalkOk(s, w, k)
    requires SlotAt(s, s.vec[k], w.id) != NULL
    ensures LocalStep(s, DoInvoke(s, t, 0), t) && ThreadOk(DoInvoke(s, t, 0), t)
  {
    var v := Visit(k, SlotAt(s, s.vec[k], w.id), 0);
    var w' := w.(visits := w.visits + [v]);
    var s' := Goto(s, t, Examine(w', k + 1));
    FairVisit(w, k, v);
    WalkAdvances(s, s', w, w', k);
    WalkingOk(s', t, w', k + 1);
    MoveLocal(s, t, Examine(w', k + 1), s.lock);
    assert DoInvoke(s, t, 0) == s';
  }

  lemma StopLocal(s: State, t: Tid, w: Walk, k: nat)
    requires Here(s, t) && s.lock == Some(t) && WalkDone(w, k, -1) && (s.pc[t].Examine? || s.pc[t].CallBack?)
    ensures var s' := Goto(s, t, Walked(w, k, -1)).(lock := None); LocalStep(s, s', t) && ThreadOk(s', t)
  {
    MoveLocal(s, t, Walked(w, k, -1), None);
  }

  lemma InvokeFailsLocal(s: State, t: Tid, ret: int, w: Walk, k: nat)
    requires Here(s, t) && s.pc[t] == CallBack(w, k) && k < |s.vec| && s.lock == Some(t) && WalkOk(s, w, k)
    requires SlotAt(s, s.vec[k], w.id) != NULL && ret != 0
    ensures LocalStep(s, DoInvoke(s, t, ret), t) && ThreadOk(DoInvoke(s, t, ret), t)
  {
    var v := Visit(k, SlotAt(s, s.vec[k], w.id), ret);
    LastVisit(w, k, v);
    StopLocal(s, t, w.(visits := w.visits + [v]), k + 1);
  }

  lemma EndWalkLocal(s: State, t: Tid, w: Walk, k: nat)
    requires Here(s, t) && s.pc[t] == Examine(w, k) && k >= |s.vec| && s.lock == Some(t) && WalkOk(s, w, k)
    ensures LocalStep(s, DoEndWalk(s, t), t) && ThreadOk(DoEndWalk(s, t), t)
  {
    MoveLocal(s, t, Walked(w, k, 0), None);
    assert WalkDone(w, k, 0);
  }
}
