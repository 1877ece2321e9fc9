// lldkGetAllocatorSingleton under any interleaving of any number of callers (src/base/allocator_impl.cpp:241-271).
// A step is one read or write of the shared pointer, one mutex operation, the construction, or init.
module Singleton {
  import opened Basics

  datatype Phase =
    | Outside
    | Looking      // line 247, without the lock
    | ReturnFast   // line 249: the pointer is read again
    | Locking      // line 252
    | Checking     // line 253
    | Building     // line 255
    | Initialising // line 262
    | ReturnLocked // line 270

  datatype Place = Place(pointer: Ptr, lock: Option<Tid>, initialised: bool, phase: map<Tid, Phase>, history: History)

  /** aux: the objects constructed, and what each completed call returned, with NULL for a failed `new`. */
  datatype History = History(made: seq<Ptr>, returned: seq<Ptr>)

  datatype Move = Call | Look | GiveFast | Lock | Check | New(p: Ptr) | Init | GiveLocked

  /** `new` yields an address, or throws or yields NULL. */
  ghost predicate Can(s: Place, t: Tid, m: Move) {
    t in s.phase &&
    match m
    case Call => s.phase[t] == Outside
    case Look => s.phase[t] == Looking
    case GiveFast => s.phase[t] == ReturnFast
    case Lock => s.phase[t] == Locking && s.lock == None
    case Check => s.phase[t] == Checking
    case New(p) => s.phase[t] == Building
    case Init => s.phase[t] == Initialising
    case GiveLocked => s.phase[t] == ReturnLocked
  }

  function Enter(s: Place, t: Tid, x: Phase): Place {
    s.(phase := s.phase[t := x])
  }

  function Return(s: Place, t: Tid, p: Ptr): Place {
    Enter(s, t, Outside).(history := s.history.(returned := s.history.returned + [p]))
  }

  ghost function Do(s: Place, t: Tid, m: Move): Place
    requires Can(s, t, m)
  {
    match m
    case Call => Enter(s, t, Looking)
    case Look => Enter(s, t, if s.pointer != NULL then ReturnFast else Locking)
    case GiveFast => Return(s, t, s.pointer)
    case Lock => Enter(s, t, Checking).(lock := Some(t))
    case Check => Enter(s, t, if s.pointer == NULL then Building else ReturnLocked)
    case New(p) =>
      if p == NULL then Return(s, t, NULL).(lock := None)
      else Enter(s, t, Initialising).(pointer := p, history := s.history.(made := s.history.made + [p]))
    case Init => Enter(s, t, ReturnLocked).(initialised := true)
    case GiveLocked => Return(s, t, s.pointer).(lock := None)
  }

  datatype Event = Event(t: Tid, m: Move)

  ghost predicate Leads(start: Place, run: seq<Event>, s: Place)
    decreases |run|
  {
    if run == [] then s == start
    else Can(start, run[0].t, run[0].m) && Leads(Do(start, run[0].t, run[0].m), run[1..], s)
  }

  ghost predicate AtStart(s: Place) {
    && s.pointer == NULL && s.lock == None && !s.initialised && s.history == History([], [])
    && forall t :: t in s.phase ==> s.phase[t] == Outside
  }

  predicate Inside(x: Phase) {
    x.Checking? || x.Building? || x.Initialising? || x.ReturnLocked?
  }

  ghost predicate Kept(s: Place) {
    // the lock is held by the one thread in the critical section
    && (forall t :: t in s.phase && Inside(s.phase[t]) ==> s.lock == Some(t))
    && (s.lock.Some? ==> s.lock.value in s.phase && Inside(s.phase[s.lock.value]))
    // the pointer is what was constructed, and nothing is constructed over it
    && s.history.made == (if s.pointer == NULL then [] else [s.pointer])
    && (forall t :: t in s.phase && s.phase[t].Building? ==> s.pointer == NULL)
    && (forall t :: t in s.phase && (s.phase[t].ReturnFast? || s.phase[t].Initialising? || s.phase[t].ReturnLocked?) ==> s.pointer != NULL)
    && (s.pointer == NULL ==> !s.initialised)
    // an object that init has not seen is in the hands of the thread that constructed it
    && (s.pointer != NULL && !s.initialised ==> s.lock.Some? && s.phase[s.lock.value].Initialising?)
    && (forall t :: t in s.phase && s.phase[t].Initialising? ==> !s.initialised)
    && (forall i :: 0 <= i < |s.history.returned| ==> s.history.returned[i] == NULL || s.history.returned[i] == s.pointer)
  }

  lemma DoKeeps(s: Place, t: Tid, m: Move)
    requires Kept(s) && Can(s, t, m)
    ensures Kept(Do(s, t, m))
  {
  }

  lemma {:induction false} LeadsKeeps(start: Place, run: seq<Event>, s: Place)
    requires Kept(start) && Leads(start, run, s)
    ensures Kept(s)
    decreases |run|
  {
    if run != [] {
      DoKeeps(start, run[0].t, run[0].m);
      LeadsKeeps(Do(start, run[0].t, run[0].m), run[1..], s);
    }
  }

  /** One object at most is constructed, and every call that returns an object returns that one, on both paths. */
  lemma OneAllocator(start: Place, run: seq<Event>, s: Place)
    requires AtStart(start) && Leads(start, run, s)
    ensures |s.history.made| <= 1
    ensures forall i :: 0 <= i < |s.history.returned| && s.history.returned[i] != NULL ==> s.history.made == [s.history.returned[i]]
  {
    LeadsKeeps(start, run, s);
  }

  function Failures(run: seq<Event>): nat {
    if run == [] then 0 else (if run[0].m == New(NULL) then 1 else 0) + Failures(run[1..])
  }

  function Nulls(returned: seq<Ptr>): nat {
    if returned == [] then 0 else (if returned[0] == NULL then 1 else 0) + Nulls(returned[1..])
  }

  lemma {:induction false} NullsAppend(xs: seq<Ptr>, x: Ptr)
    ensures Nulls(xs + [x]) == Nulls(xs) + if x == NULL then 1 else 0
  {
    if xs == [] {
      assert xs + [x] == [x];
    } else {
      assert (xs + [x])[1..] == xs[1..] + [x];
      NullsAppend(xs[1..], x);
    }
  }

  lemma {:induction false} NullsFollowFailures(start: Place, run: seq<Event>, s: Place)
    requires Kept(start) && Leads(start, run, s)
    ensures Nulls(s.history.returned) == Nulls(start.history.returned) + Failures(run)
    decreases |run|
  {
    if run != [] {
      var next := Do(start, run[0].t, run[0].m);
      DoKeeps(start, run[0].t, run[0].m);
      NullsFollowFailures(next, run[1..], s);
      NullsAppend(start.history.returned, start.pointer);
      NullsAppend(start.history.returned, NULL);
    }
  }

  /** A call fails exactly when its own `new` does: a failure leaves nothing behind for other callers. */
  lemma OnlyFailedNewFails(start: Place, run: seq<Event>, s: Place)
    requires AtStart(start) && Leads(start, run, s)
    ensures Nulls(s.history.returned) == Failures(run)
  {
    NullsFollowFailures(start, run, s);
  }

  /** How many calls complete in the run: on either path, or by a failed `new`. */
  function Completed(run: seq<Event>): nat {
    if run == [] then 0
    else (if run[0].m.GiveFast? || run[0].m.GiveLocked? || run[0].m == New(NULL) then 1 else 0) + Completed(run[1..])
  }

  /** Every completed call has its entry among what was returned. */
  lemma {:induction false} EveryCallReturns(start: Place, run: seq<Event>, s: Place)
    requires Leads(start, run, s)
    ensures |s.history.returned| == |start.history.returned| + Completed(run)
    decreases |run|
  {
    if run != [] {
      EveryCallReturns(Do(start, run[0].t, run[0].m), run[1..], s);
    }
  }

  /** A caller is only ever held up by the mutex, and its holder is not: nobody waits for good. */
  lemma NobodyIsStuck(start: Place, run: seq<Event>, s: Place, t: Tid) returns (u: Tid, m: Move)
    requires AtStart(start) && Leads(start, run, s) && t in s.phase
    ensures Can(s, u, m) && (u == t || (s.phase[t] == Locking && s.lock == Some(u)))
  {
    LeadsKeeps(start, run, s);
    u := if s.phase[t] == Locking && s.lock.Some? then s.lock.value else t;
    m := match s.phase[u]
      case Outside => Call
      case Looking => Look
      case ReturnFast => GiveFast
      case Locking => Lock
      case Checking => Check
      case Building => New(NULL)
      case Initialising => Init
      case ReturnLocked => GiveLocked;
  }

  lemma {:induction false} NoNulls(returned: seq<Ptr>)
    requires Nulls(returned) == 0
    ensures forall i :: 0 <= i < |returned| ==> returned[i] != NULL
  {
    if returned != [] {
      NoNulls(returned[1..]);
      assert forall i :: 1 <= i < |returned| ==> returned[i] == returned[1..][i - 1];
    }
  }

  /** With `new` succeeding, every completed call returns the same non-null pointer. */
  lemma SamePointerForAll(start: Place, run: seq<Event>, s: Place, i: nat)
    requires AtStart(start) && Leads(start, run, s) && Failures(run) == 0 && i < |s.history.returned|
    ensures s.history.returned[i] == s.pointer != NULL && s.history.made == [s.pointer]
  {
    LeadsKeeps(start, run, s);
    OnlyFailedNewFails(start, run, s);
    NoNulls(s.history.returned);
  }

  /** The locked path returns the allocator after init. */
  lemma LockedPathReturnsInitialised(start: Place, run: seq<Event>, s: Place, t: Tid)
    requires AtStart(start) && Leads(start, run, s) && Can(s, t, GiveLocked)
    ensures s.pointer != NULL && s.initialised
  {
    LeadsKeeps(start, run, s);
  }

  /** The fast path returns it before init exactly while the constructing thread has not got there. */
  lemma FastPathMayPrecedeInit(start: Place, run: seq<Event>, s: Place, t: Tid)
    requires AtStart(start) && Leads(start, run, s) && Can(s, t, GiveFast)
    ensures s.pointer != NULL
    ensures !s.initialised <==> exists u :: u in s.phase && s.phase[u].Initialising?
  {
    LeadsKeeps(start, run, s);
    if !s.initialised {
      var u := s.lock.value;
      assert u in s.phase && s.phase[u].Initialising?;
    }
  }

  /** And that happens: the second caller returns while the first has yet to call init. */
  lemma FastPathBeforeInit(start: Place, t: Tid, u: Tid) returns (run: seq<Event>, s: Place)
    requires AtStart(start) && t in start.phase && u in start.phase && t != u
    ensures Leads(start, run, s) && s.history.returned == [1] && !s.initialised
  {
    var s1 := Do(start, t, Call);
    var s2 := Do(s1, t, Look);
    var s3 := Do(s2, t, Lock);
    var s4 := Do(s3, t, Check);
    var s5 := Do(s4, t, New(1));
    var s6 := Do(s5, u, Call);
    var s7 := Do(s6, u, Look);
    s := Do(s7, u, GiveFast);
    run := [Event(u, GiveFast)];
    assert Leads(s7, run, s);
    run := Before(s6, Event(u, Look), run, s);
    run := Before(s5, Event(u, Call), run, s);
    run := Before(s4, Event(t, New(1)), run, s);
    run := Before(s3, Event(t, Check), run, s);
    run := Before(s2, Event(t, Lock), run, s);
    run := Before(s1, Event(t, Look), run, s);
    run := Before(start, Event(t, Call), run, s);
  }

  lemma Before(s: Place, e: Event, rest: seq<Event>, end: Place) returns (run: seq<Event>)
    requires Can(s, e.t, e.m) && Leads(Do(s, e.t, e.m), rest, end)
    ensures run == [e] + rest && Leads(s, run, end)
  {
    run := [e] + rest;
    assert run[1..] == rest;
  }
}
