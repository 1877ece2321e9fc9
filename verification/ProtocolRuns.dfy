// Every reachable state of the registry protocol satisfies the structural invariant.
module ProtocolRuns {
  import opened Bitset
  import opened Sums
  import opened Protocol
  import opened Basics
  import opened ProtocolInvariant
  import opened ProtocolSteps
  import opened ProtocolTables

  /** A step that only moves a thread on, outside foreach. */
  lemma GotoKeeps(s: State, t: Tid, pc: PC)
    requires Structure(s) && t in s.pc && !s.pc[t].Examine? && !s.pc[t].CallBack? && !pc.Examine? && !pc.CallBack?
    requires SamePending(s, t, pc) && ThreadOk(Goto(s, t, pc), t)
    ensures Structure(Goto(s, t, pc))
  {
    LockElsewhere(s, t);
    MoveLocal(s, t, pc, s.lock);
    LocalStepKeeps(s, Goto(s, t, pc), t);
  }

  lemma StartKeeps(s: State, t: Tid, a: Action)
    requires Structure(s) && Enabled(s, t, a)
    requires a.StartConstruct? || a.StartDestroy? || a.StartAllocate? || a.Leave? || a.StoreNull?
    ensures Structure(Next(s, t, a))
  {
    assert ThreadOk(s, t);
    GotoKeeps(s, t, Next(s, t, a).pc[t]);
  }

  lemma IdStepKeeps(s: State, t: Tid, a: Action)
    requires Structure(s) && Enabled(s, t, a) && (a.TakeId? || a.GiveIdBack?)
    ensures Structure(Next(s, t, a))
  {
    assert ThreadOk(s, t);
    if a.GiveIdBack? {
      GiveIdBackLocal(s, t);
    } else if FreshId(s) == MAX_INSTANCE_ID {
      TakeNoIdLocal(s, t);
    } else {
      TakeIdLocal(s, t);
    }
    LocalStepKeeps(s, Next(s, t, a), t);
  }

  lemma MallocKeeps(s: State, t: Tid, p: Ptr)
    requires Structure(s) && Enabled(s, t, Malloc(p))
    ensures Structure(DoMalloc(s, t, p))
  {
    assert ThreadOk(s, t);
    if p != NULL {
      MallocLocal(s, t, p);
    } else if s.pc[t].back.ToConstructor? {
      StorageFailsLocal(s, t);
    } else if s.pc[t].back.ToTable? {
      TableFailsLocal(s, t);
    } else {
      CallerFailsLocal(s, t);
    }
    LocalStepKeeps(s, DoMalloc(s, t, p), t);
  }

  lemma CountAllocatedKeeps(s: State, t: Tid)
    requires Structure(s) && Enabled(s, t, CountAllocated)
    ensures Structure(DoCountAllocated(s, t))
  {
    var s' := DoCountAllocated(s, t);
    assert ThreadOk(s, t);
    if s.pc[t].back.ToConstructor? {
      CountConstructorLocal(s, t);
      LocalStepKeeps(s, s', t);
    } else if s.pc[t].back.ToTable? {
      CountTable(s, t);
      UnregisteredStepKeeps(s, s', t);
    } else {
      CountForCaller(s, t);
      HandOverKeeps(s, s', t);
    }
  }

  lemma ReleaseKeeps(s: State, t: Tid)
    requires Structure(s) && Enabled(s, t, Release)
    ensures Structure(DoRelease(s, t))
  {
    assert ThreadOk(s, t);
    if s.pc[t].ret.FromRollback? {
      ReleaseTable(s, t);
      UnregisteredStepKeeps(s, DoRelease(s, t), t);
    } else {
      ReleaseLocal(s, t);
      LocalStepKeeps(s, DoRelease(s, t), t);
    }
  }

  lemma BlockStepKeeps(s: State, t: Tid, a: Action)
    requires Structure(s) && Enabled(s, t, a) && (a.PutHeader? || a.TakeHeader? || a.CountFreed? || a.LookForTable?)
    ensures Structure(Next(s, t, a))
  {
    assert ThreadOk(s, t);
    match a {
      case PutHeader => PutHeaderLocal(s, t);
      case TakeHeader => TakeHeaderLocal(s, t);
      case CountFreed => CountFreedLocal(s, t);
      case LookForTable => LookForTableLocal(s, t);
    }
    LocalStepKeeps(s, Next(s, t, a), t);
  }

  lemma WalkStepKeeps(s: State, t: Tid, a: Action)
    requires Structure(s) && Enabled(s, t, a) && (a.StartForeach? || a.LoadSlot? || a.Invoke? || a.EndWalk?)
    ensures Structure(Next(s, t, a))
  {
    assert ThreadOk(s, t);
    match a {
      case StartForeach(id) => StartForeachLocal(s, t, id);
      case LoadSlot =>
        var Examine(w, k) := s.pc[t];
        if SlotAt(s, s.vec[k], w.id) == NULL {
          LoadNullLocal(s, t, w, k);
        } else {
          LoadFilledLocal(s, t, w, k);
        }
      case Invoke(ret) =>
        var CallBack(w, k) := s.pc[t];
        if ret == 0 {
          InvokeZeroLocal(s, t, w, k);
        } else {
          InvokeFailsLocal(s, t, ret, w, k);
        }
      case EndWalk => EndWalkLocal(s, t, s.pc[t].w, s.pc[t].k);
    }
    LocalStepKeeps(s, Next(s, t, a), t);
  }

  lemma TableStepKeeps(s: State, t: Tid, a: Action)
    requires Structure(s) && Enabled(s, t, a) && (a.ZeroNewTable? || a.Push?)
    ensures Structure(Next(s, t, a))
  {
    assert ThreadOk(s, t);
    if a.ZeroNewTable? {
      ZeroTableStep(s, t);
      UnregisteredStepKeeps(s, Next(s, t, a), t);
    } else if a.ok {
      PushKeeps(s, t);
    } else {
      PushFails(s, t);
      UnregisteredStepKeeps(s, Next(s, t, a), t);
    }
  }

  lemma HandOverStepKeeps(s: State, t: Tid, a: Action)
    requires Structure(s) && Enabled(s, t, a) && (a.StartFree? || a.LoadOwnSlot?)
    ensures Structure(Next(s, t, a))
  {
    assert ThreadOk(s, t);
    if a.StartFree? {
      FreeForCaller(s, t, a.p);
    } else {
      DestroyTakesBlock(s, t);
    }
    HandOverKeeps(s, Next(s, t, a), t);
  }

  lemma StepKeeps(s: State, t: Tid, a: Action)
    requires Structure(s) && Enabled(s, t, a)
    ensures Structure(Next(s, t, a))
  {
    match a
    case StartConstruct(_) => StartKeeps(s, t, a);
    case StartDestroy(_) => StartKeeps(s, t, a);
    case StartAllocate(_) => StartKeeps(s, t, a);
    case Leave => StartKeeps(s, t, a);
    case StoreNull => StartKeeps(s, t, a);
    case TakeId => IdStepKeeps(s, t, a);
    case GiveIdBack => IdStepKeeps(s, t, a);
    case Malloc(p) => MallocKeeps(s, t, p);
    case CountAllocated => CountAllocatedKeeps(s, t);
    case Release => ReleaseKeeps(s, t);
    case PutHeader => BlockStepKeeps(s, t, a);
    case TakeHeader => BlockStepKeeps(s, t, a);
    case CountFreed => BlockStepKeeps(s, t, a);
    case LookForTable => BlockStepKeeps(s, t, a);
    case StartForeach(_) => WalkStepKeeps(s, t, a);
    case LoadSlot => WalkStepKeeps(s, t, a);
    case Invoke(_) => WalkStepKeeps(s, t, a);
    case EndWalk => WalkStepKeeps(s, t, a);
    case ZeroNewTable => TableStepKeeps(s, t, a);
    case Push(_) => TableStepKeeps(s, t, a);
    case StartFree(_) => HandOverStepKeeps(s, t, a);
    case LoadOwnSlot => HandOverStepKeeps(s, t, a);
    case Store(n) => StoreKeeps(s, t, n);
  }

  lemma {:induction false} RunKeeps(start: State, run: seq<Event>, s: State)
    requires Structure(start) && Reaches(start, run, s)
    ensures Structure(s)
    decreases |run|
  {
    if run != [] {
      StepKeeps(start, run[0].t, run[0].a);
      RunKeeps(Next(start, run[0].t, run[0].a), run[1..], s);
    }
  }

  lemma ReachableStructure(s: State)
    requires Reachable(s)
    ensures Structure(s)
  {
    var start, run :| Initial(start) && Reaches(start, run, s);
    InitialStructure(start);
    RunKeeps(start, run, s);
  }
}
