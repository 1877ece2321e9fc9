// What foreach passes to its callbacks, over whole runs, and that no thread waits for good.
module ProtocolWalks {
  import opened Sums
  import opened Basics
  import opened Protocol
  import opened ProtocolInvariant
  import opened ProtocolTables
  import opened ProtocolRuns
  import opened ProtocolCounts

  // ---------------------------------------------------------------------------------------------
  // What a step leaves to the other threads
  // ---------------------------------------------------------------------------------------------

  /** Nothing but the thread's own program counter moves, and the vector stays. */
  predicate Elsewhere(s: State, s': State, u: Tid) {
    s'.vec == s.vec && u in s'.pc && s'.pc == s.pc[u := s'.pc[u]]
  }

  lemma StartElsewhere(s: State, u: Tid, a: Action)
    requires Enabled(s, u, a) && Starts(a)
    ensures Elsewhere(s, Next(s, u, a), u)
  {
  }

  lemma LoadSlotElsewhere(s: State, u: Tid)
    requires u in s.pc && s.pc[u].Examine? && s.pc[u].k < |s.vec|
    ensures Elsewhere(s, DoLoadSlot(s, u), u)
  {
  }

  lemma InvokeElsewhere(s: State, u: Tid, ret: int)
    requires u in s.pc && s.pc[u].CallBack? && s.pc[u].k < |s.vec|
    ensures Elsewhere(s, DoInvoke(s, u, ret), u)
  {
  }

  lemma WalkElsewhere(s: State, u: Tid, a: Action)
    requires Enabled(s, u, a) && StartsOrWalks(a) && !Starts(a)
    ensures Elsewhere(s, Next(s, u, a), u)
  {
    if a.LoadSlot? {
      LoadSlotElsewhere(s, u);
    } else if a.Invoke? {
      InvokeElsewhere(s, u, a.ret);
    }
  }

  lemma TouchElsewhere(s: State, u: Tid, a: Action)
    requires Enabled(s, u, a) && TouchesNoBlock(a) && a != Push(true)
    ensures Elsewhere(s, Next(s, u, a), u)
  {
    if a.TakeId? || a.GiveIdBack? || a.StoreNull? {
      IdsElsewhere(s, u, a);
    }
  }

  lemma IdsElsewhere(s: State, u: Tid, a: Action)
    requires Enabled(s, u, a) && (a.TakeId? || a.GiveIdBack? || a.StoreNull?)
    ensures Elsewhere(s, Next(s, u, a), u)
  {
  }

  lemma MallocElsewhere(s: State, u: Tid, p: Ptr)
    requires u in s.pc && s.pc[u].Alloc?
    ensures Elsewhere(s, DoMalloc(s, u, p), u)
  {
    if p == NULL {
      NoMemoryElsewhere(s, u);
    }
  }

  lemma NoMemoryElsewhere(s: State, u: Tid)
    requires u in s.pc && s.pc[u].Alloc?
    ensures Elsewhere(s, DoMalloc(s, u, NULL), u)
  {
  }

  lemma CountAllocatedElsewhere(s: State, u: Tid)
    requires u in s.pc && s.pc[u].Alloc? && s.pc[u].stage.CountIn?
    ensures Elsewhere(s, DoCountAllocated(s, u), u)
  {
  }

  lemma AllocElsewhere(s: State, u: Tid, a: Action)
    requires Enabled(s, u, a) && (a.Malloc? || a.PutHeader? || a.CountAllocated?)
    ensures Elsewhere(s, Next(s, u, a), u)
  {
    if a.Malloc? {
      MallocElsewhere(s, u, a.p);
    } else if a.CountAllocated? {
      CountAllocatedElsewhere(s, u);
    }
  }

  lemma CountFreedElsewhere(s: State, u: Tid)
    requires u in s.pc && s.pc[u].Free? && s.pc[u].fstage.CountOut?
    ensures Elsewhere(s, DoCountFreed(s, u), u)
  {
  }

  lemma ReleaseElsewhere(s: State, u: Tid)
    requires u in s.pc && s.pc[u].Free?
    ensures Elsewhere(s, DoRelease(s, u), u)
  {
    if s.pc[u].ret.FromRollback? {
      RollbackElsewhere(s, u);
    }
  }

  lemma RollbackElsewhere(s: State, u: Tid)
    requires u in s.pc && s.pc[u].Free? && s.pc[u].ret.FromRollback?
    ensures Elsewhere(s, DoRelease(s, u), u)
  {
  }

  lemma FreeElsewhere(s: State, u: Tid, a: Action)
    requires Enabled(s, u, a) && (a.StartFree? || a.CountFreed? || a.Release?)
    ensures Elsewhere(s, Next(s, u, a), u)
  {
    if a.CountFreed? {
      CountFreedElsewhere(s, u);
    } else if a.Release? {
      ReleaseElsewhere(s, u);
    }
  }

  lemma OwnerElsewhere(s: State, u: Tid, a: Action)
    requires Enabled(s, u, a) && (a.Store? || a.LoadOwnSlot?)
    ensures Elsewhere(s, Next(s, u, a), u)
  {
  }

  /** Only a push_back that succeeds changes the vector, and it adds the thread's table at the end. */
  lemma VectorOnlyGrows(s: State, u: Tid, a: Action)
    requires Enabled(s, u, a)
    ensures a == Push(true) ==> Next(s, u, a).vec == s.vec + [s.table[u]]
    ensures a != Push(true) ==> Elsewhere(s, Next(s, u, a), u)
  {
    if a == Push(true) {
    } else if Starts(a) {
      StartElsewhere(s, u, a);
    } else if StartsOrWalks(a) {
      WalkElsewhere(s, u, a);
    } else if TouchesNoBlock(a) {
      TouchElsewhere(s, u, a);
    } else if a.Malloc? || a.PutHeader? || a.CountAllocated? {
      AllocElsewhere(s, u, a);
    } else if a.Store? || a.LoadOwnSlot? {
      OwnerElsewhere(s, u, a);
    } else {
      FreeElsewhere(s, u, a);
    }
  }

  /** The slots of listed tables change under the ids that are stored, and no others. */
  lemma SlotKept(s: State, u: Tid, a: Action, q: Ptr, id: nat)
    requires Structure(s) && Enabled(s, u, a) && q in s.vec && !StoresUnder(s, u, a, id)
    ensures SlotAt(Next(s, u, a), q, id) == SlotAt(s, q, id)
  {
    assert ThreadOk(s, u);
    assert Listed(s, q);
    if a.ZeroNewTable? {
      ZeroKeepsSlot(s, u, q, id);
    } else if a.Release? {
      ReleaseKeepsSlot(s, u, q, id);
    } else if a.Store? {
      StoreKeepsSlot(s, u, a.n, q, id);
    }
  }

  predicate StoresUnder(s: State, u: Tid, a: Action, id: nat) {
    a.Store? && u in s.pc && s.pc[u].StoreSlot? && s.pc[u].id == id
  }

  lemma ZeroKeepsSlot(s: State, u: Tid, q: Ptr, id: nat)
    requires TablesOk(s) && Listed(s, q) && u in s.pc && s.pc[u].ZeroTable? && u in s.table
    ensures SlotAt(DoZeroNewTable(s, u), q, id) == SlotAt(s, q, id)
  {
    assert TableOk(s, u);
  }

  lemma ReleaseKeepsSlot(s: State, u: Tid, q: Ptr, id: nat)
    requires TablesOk(s) && Listed(s, q) && u in s.pc && s.pc[u].Free? && ThreadOk(s, u)
    ensures SlotAt(DoRelease(s, u), q, id) == SlotAt(s, q, id)
  {
    if s.pc[u].ret.FromRollback? {
      assert TableOk(s, u);
    }
  }

  lemma StoreKeepsSlot(s: State, u: Tid, n: ObjId, q: Ptr, id: nat)
    requires u in s.pc && s.pc[u].StoreSlot? && u in s.table && s.pc[u].id != id
    ensures SlotAt(DoStore(s, u, n), q, id) == SlotAt(s, q, id)
  {
  }

  // ---------------------------------------------------------------------------------------------
  // The pointers passed
  // ---------------------------------------------------------------------------------------------

  predicate Walks(pc: PC) {
    pc.Examine? || pc.CallBack? || pc.Walked?
  }

  /** Each callback is passed what the slot it is called for holds at that step. */
  lemma InvokePassesSlot(s: State, t: Tid, ret: int)
    requires Enabled(s, t, Invoke(ret))
    ensures
      var pc := DoInvoke(s, t, ret).pc[t];
      && Next(s, t, Invoke(ret)) == DoInvoke(s, t, ret) && Walks(pc)
      && pc.w.visits == s.pc[t].w.visits + [Visit(s.pc[t].k, SlotAt(s, s.vec[s.pc[t].k], s.pc[t].w.id), ret)]
  {
    PassedAt(s, t, ret);
  }

  lemma PassedAt(s: State, t: Tid, ret: int)
    requires t in s.pc && s.pc[t].CallBack? && s.pc[t].k < |s.vec|
    ensures
      var pc := DoInvoke(s, t, ret).pc[t];
      Walks(pc) && pc.w.visits == s.pc[t].w.visits + [Visit(s.pc[t].k, SlotAt(s, s.vec[s.pc[t].k], s.pc[t].w.id), ret)]
  {
  }

  function Storages(visits: seq<Visit>): seq<Ptr> {
    if visits == [] then [] else Storages(visits[..|visits| - 1]) + [visits[|visits| - 1].storage]
  }

  function NonNull(slots: seq<Ptr>): seq<Ptr> {
    if slots == [] then []
    else NonNull(slots[..|slots| - 1]) + if slots[|slots| - 1] == NULL then [] else [slots[|slots| - 1]]
  }

  lemma OneMoreSlot(slots: seq<Ptr>, k: nat)
    requires k < |slots|
    ensures NonNull(slots[..k + 1]) == NonNull(slots[..k]) + if slots[k] == NULL then [] else [slots[k]]
  {
    assert slots[..k + 1][..k] == slots[..k];
  }

  lemma OneMoreVisit(visits: seq<Visit>, v: Visit)
    ensures Storages(visits + [v]) == Storages(visits) + [v.storage]
  {
    assert (visits + [v])[..|visits|] == visits;
  }

  /** The walk took the lock on this id with this vector and these slots. */
  predicate Began(w: Walk, id: nat, order: seq<Ptr>, before: seq<Ptr>) {
    w.id == id && w.order == order && w.before == before && |before| == |order|
  }

  /** Up to index `k` the callbacks were passed the filled slots as they were at the start. */
  ghost predicate Passed(w: Walk, k: nat) {
    k <= |w.before| && Storages(w.visits) == NonNull(w.before[..k])
  }

  ghost predicate StillAsBefore(s: State, w: Walk) {
    s.vec == w.order && |w.before| == |w.order| && forall j :: 0 <= j < |s.vec| ==> SlotAt(s, s.vec[j], w.id) == w.before[j]
  }

  /** A walk of thread `t` under way or just finished; `calm` says that nobody has stored under its id. */
  ghost predicate OnWalk(s: State, t: Tid, id: nat, order: seq<Ptr>, before: seq<Ptr>, calm: bool) {
    && t in s.pc && Walks(s.pc[t]) && Began(s.pc[t].w, id, order, before)
    && (calm ==> Passed(s.pc[t].w, s.pc[t].k))
    && (calm && !s.pc[t].Walked? ==> StillAsBefore(s, s.pc[t].w))
    && (calm && s.pc[t].CallBack? ==> s.pc[t].k < |before| && before[s.pc[t].k] != NULL)
  }

  lemma StartOnWalk(s: State, t: Tid, id: nat)
    requires Enabled(s, t, StartForeach(id))
    ensures OnWalk(Next(s, t, StartForeach(id)), t, id, s.vec, SlotsNow(s, id), true)
  {
    var s' := DoStartForeach(s, t, id);
    var w := Walk(id, s.vec, SlotsNow(s, id), []);
    assert s'.pc[t] == Examine(w, 0);
    assert w.before[..0] == [];
    forall j | 0 <= j < |s'.vec| ensures SlotAt(s', s'.vec[j], id) == w.before[j] {
    }
  }

  /** Another thread's step. */
  lemma OthersKeepWalk(s: State, t: Tid, u: Tid, a: Action, id: nat, order: seq<Ptr>, before: seq<Ptr>, calm: bool)
    requires Structure(s) && Enabled(s, u, a) && u != t && OnWalk(s, t, id, order, before, calm)
    requires calm ==> !StoresUnder(s, u, a, id)
    ensures OnWalk(Next(s, u, a), t, id, order, before, calm)
  {
    var s' := Next(s, u, a);
    if s.pc[t].Walked? {
      if a == Push(true) {
        assert s'.pc[t] == s.pc[t];
      } else {
        VectorOnlyGrows(s, u, a);
      }
    } else {
      assert ThreadOk(s, t);
      VectorOnlyGrows(s, u, a);
      if calm {
        forall j | 0 <= j < |s.vec| ensures SlotAt(s', s.vec[j], id) == before[j] {
          SlotKept(s, u, a, s.vec[j], id);
        }
      }
    }
  }

  lemma LoadKeepsWalk(s: State, t: Tid, id: nat, order: seq<Ptr>, before: seq<Ptr>, calm: bool)
    requires Enabled(s, t, LoadSlot) && OnWalk(s, t, id, order, before, calm)
    ensures OnWalk(DoLoadSlot(s, t), t, id, order, before, calm)
  {
    var s' := DoLoadSlot(s, t);
    var Examine(w, k) := s.pc[t];
    if calm {
      OneMoreSlot(before, k);
      assert s'.vec == s.vec && forall j :: 0 <= j < |s.vec| ==> SlotAt(s', s.vec[j], id) == SlotAt(s, s.vec[j], id);
    }
  }

  lemma InvokeKeepsWalk(s: State, t: Tid, ret: int, id: nat, order: seq<Ptr>, before: seq<Ptr>, calm: bool)
    requires Enabled(s, t, Invoke(ret)) && OnWalk(s, t, id, order, before, calm)
    ensures OnWalk(DoInvoke(s, t, ret), t, id, order, before, calm)
  {
    var s' := DoInvoke(s, t, ret);
    var CallBack(w, k) := s.pc[t];
    var v := Visit(k, SlotAt(s, s.vec[k], w.id), ret);
    InvokePassesSlot(s, t, ret);
    if calm {
      OneMoreSlot(before, k);
      OneMoreVisit(w.visits, v);
      assert s'.vec == s.vec && forall j :: 0 <= j < |s.vec| ==> SlotAt(s', s.vec[j], id) == SlotAt(s, s.vec[j], id);
    }
  }

  lemma OwnStepKeepsWalk(s: State, t: Tid, a: Action, id: nat, order: seq<Ptr>, before: seq<Ptr>, calm: bool)
    requires Enabled(s, t, a) && a != Leave && OnWalk(s, t, id, order, before, calm)
    ensures OnWalk(Next(s, t, a), t, id, order, before, calm)
  {
    if a.LoadSlot? {
      LoadKeepsWalk(s, t, id, order, before, calm);
    } else if a.Invoke? {
      InvokeKeepsWalk(s, t, a.ret, id, order, before, calm);
    } else {
      assert a.EndWalk?;
    }
  }

  /** No step of the run stores under `id`. */
  ghost predicate NoStoreUnder(s: State, run: seq<Event>, id: nat)
    decreases |run|
  {
    run == [] || (Enabled(s, run[0].t, run[0].a) ==>
      !StoresUnder(s, run[0].t, run[0].a, id) && NoStoreUnder(Next(s, run[0].t, run[0].a), run[1..], id))
  }

  lemma {:induction false} RunKeepsWalk(s: State, t: Tid, run: seq<Event>, s': State, id: nat, order: seq<Ptr>, before: seq<Ptr>, calm: bool)
    requires Structure(s) && Reaches(s, run, s') && Event(t, Leave) !in run && OnWalk(s, t, id, order, before, calm)
    requires calm ==> NoStoreUnder(s, run, id)
    ensures OnWalk(s', t, id, order, before, calm)
    decreases |run|
  {
    if run != [] {
      var (u, a) := (run[0].t, run[0].a);
      StepKeeps(s, u, a);
      assert run[0] in run && forall e :: e in run[1..] ==> e in run;
      if u == t {
        OwnStepKeepsWalk(s, t, a, id, order, before, calm);
      } else {
        OthersKeepWalk(s, t, u, a, id, order, before, calm);
      }
      RunKeepsWalk(Next(s, u, a), t, run[1..], s', id, order, before, calm);
    }
  }

  /** Whatever other threads do meanwhile, a foreach walks the vector it found on the id it was given, and `before` is
      what the slots held when it took the lock. */
  lemma ForeachWalksWhatItFound(s: State, t: Tid, id: nat, run: seq<Event>, s': State)
    requires Reachable(s) && Enabled(s, t, StartForeach(id)) && Reaches(Next(s, t, StartForeach(id)), run, s')
    requires Event(t, Leave) !in run
    ensures t in s'.pc && Walks(s'.pc[t]) && s'.pc[t].w.id == id && s'.pc[t].w.order == s.vec
    ensures |s'.pc[t].w.before| == |s.vec| && forall j :: 0 <= j < |s.vec| ==> s'.pc[t].w.before[j] == SlotAt(s, s.vec[j], id)
  {
    ReachableStructure(s);
    StepKeeps(s, t, StartForeach(id));
    StartOnWalk(s, t, id);
    RunKeepsWalk(Next(s, t, StartForeach(id)), t, run, s', id, s.vec, SlotsNow(s, id), false);
  }

  /** When no thread stores under the id meanwhile, the callbacks of a foreach that returned 0 were passed exactly the
      filled slots, in registration order; one that returned -1 had come so far with them. */
  lemma ForeachPassesFilledSlots(s: State, t: Tid, id: nat, run: seq<Event>, s': State)
    requires Reachable(s) && Enabled(s, t, StartForeach(id)) && Reaches(Next(s, t, StartForeach(id)), run, s')
    requires Event(t, Leave) !in run && NoStoreUnder(Next(s, t, StartForeach(id)), run, id)
    requires t in s'.pc && s'.pc[t].Walked?
    ensures s'.pc[t].rc == 0 ==> Storages(s'.pc[t].w.visits) == NonNull(SlotsNow(s, id))
    ensures s'.pc[t].k <= |s.vec| && Storages(s'.pc[t].w.visits) == NonNull(SlotsNow(s, id)[..s'.pc[t].k])
  {
    ReachableStructure(s);
    StepKeeps(s, t, StartForeach(id));
    StartOnWalk(s, t, id);
    RunKeepsWalk(Next(s, t, StartForeach(id)), t, run, s', id, s.vec, SlotsNow(s, id), true);
    RunKeeps(Next(s, t, StartForeach(id)), run, s');
    WalkEnds(s', t, id, s.vec, SlotsNow(s, id));
  }

  lemma WalkEnds(s: State, t: Tid, id: nat, order: seq<Ptr>, before: seq<Ptr>)
    requires Structure(s) && OnWalk(s, t, id, order, before, true) && s.pc[t].Walked?
    ensures s.pc[t].rc == 0 ==> Storages(s.pc[t].w.visits) == NonNull(before)
    ensures s.pc[t].k <= |before| && Storages(s.pc[t].w.visits) == NonNull(before[..s.pc[t].k])
  {
    assert ThreadOk(s, t);
    assert before[..|before|] == before;
  }

  // ---------------------------------------------------------------------------------------------
  // Progress
  // ---------------------------------------------------------------------------------------------

  predicate WaitsForLock(pc: PC) {
    pc.NewId? || pc.PushTable? || pc.ReturnId?
  }

  lemma Member<K, V>(m: map<K, V>) returns (k: K)
    requires m != map[]
    ensures k in m
  {
    k :| k in m;
  }

  lemma {:induction false} Unused<V>(m: map<int, V>) returns (n: int)
    ensures forall k :: k in m ==> k < n
    decreases |m|
  {
    if m == map[] {
      n := 0;
    } else {
      var k := Member(m);
      n := Unused(m - {k});
      if n <= k {
        n := k + 1;
      }
      assert forall j :: j in m ==> j == k || j in m - {k};
    }
  }

  /** The next step of a thread that is not held up. */
  lemma OwnNextStep(s: State, t: Tid) returns (a: Action)
    requires Structure(s) && t in s.pc && (WaitsForLock(s.pc[t]) ==> s.lock == None)
    ensures Enabled(s, t, a)
  {
    assert ThreadOk(s, t);
    match s.pc[t]
    case Idle => a := StartConstruct(0);
    case NewId(_) => a := TakeId;
    case Alloc(_, stage, _) => a := if stage.CallMalloc? then Malloc(NULL) else if stage.WriteHeader? then PutHeader else CountAllocated;
    case FindTable(_, _, _) => a := LookForTable;
    case ZeroTable(_, _, _) => a := ZeroNewTable;
    case PushTable(_, _, _) => a := Push(true);
    case StoreSlot(_, _, _) =>
      var n := Unused(s.objects);
      a := Store(n);
    case Free(_, _, stage, _) => a := if stage.ReadHeader? then TakeHeader else if stage.CountOut? then CountFreed else Release;
    case ReturnId(_) => a := GiveIdBack;
    case ReadSlot(_, _) => a := LoadOwnSlot;
    case ClearSlot(_) => a := StoreNull;
    case Examine(_, k) => a := if k < |s.vec| then LoadSlot else EndWalk;
    case CallBack(_, _) => a := Invoke(0);
    case Walked(_, _, _) => a := Leave;
  }

  /** What malloc, push_back and the callbacks answer is not restricted. */
  lemma EveryAnswerIsPossible(s: State, t: Tid, p: Ptr, ok: bool, ret: int)
    requires Reachable(s) && t in s.pc
    ensures s.pc[t].Alloc? && s.pc[t].stage == CallMalloc && p !in s.heap ==> Enabled(s, t, Malloc(p))
    ensures s.pc[t].PushTable? && s.lock == None ==> Enabled(s, t, Push(ok))
    ensures s.pc[t].CallBack? ==> Enabled(s, t, Invoke(ret))
  {
    ReachableStructure(s);
    assert ThreadOk(s, t);
  }

  /** Nor is the call an idle thread makes, of those it may make. */
  lemma EveryCallIsPossible(s: State, t: Tid, size: nat, id: nat)
    requires t in s.pc && s.pc[t] == Idle && id < 2048
    ensures Enabled(s, t, StartConstruct(size)) && Enabled(s, t, StartAllocate(size))
    ensures s.lock == None ==> Enabled(s, t, StartForeach(id))
    ensures forall n :: n in s.objects && s.objects[n].owner == t ==> Enabled(s, t, StartDestroy(n))
    ensures forall p :: p in s.raw ==> Enabled(s, t, StartFree(p))
  {
  }

  /** In every reachable state a thread can take a step of its own, unless it waits for the mutex of a foreach, and then
      the thread that walks can. */
  lemma NobodyIsStuck(s: State, t: Tid) returns (u: Tid, a: Action)
    requires Reachable(s) && t in s.pc
    ensures Enabled(s, u, a)
    ensures u == t || (WaitsForLock(s.pc[t]) && s.lock == Some(u))
  {
    ReachableStructure(s);
    u := if WaitsForLock(s.pc[t]) && s.lock.Some? then s.lock.value else t;
    a := OwnNextStep(s, u);
  }
}
