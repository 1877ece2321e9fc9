// What holds after any run of AllocatorModel, for any interleaving of its threads.
module AllocatorRuns {
  import opened Sums
  import opened Basics
  import opened AllocatorModel

  lemma {:induction false} RunBalances(start: State, run: seq<Event>, s: State)
    requires Reaches(start, run, s) && Invariant(start) && Balance(start)
    ensures Invariant(s) && Balance(s)
    decreases |run|
  {
    if run != [] {
      StepKeepsInvariant(start, run[0].t, run[0].a);
      StepBalances(start, run[0].t, run[0].a);
      RunBalances(Next(start, run[0].t, run[0].a), run[1..], s);
    }
  }

  /** At every point of every run, the statistics, what is in flight and what slotless threads missed add up to the
      live blocks and the sizes in their headers. */
  lemma StatsAccountForBlocks(start: State, run: seq<Event>, s: State)
    requires Initial(start) && Reaches(start, run, s)
    ensures Invariant(s) && Balance(s)
  {
    InitialBalance(start);
    RunBalances(start, run, s);
  }

  lemma InitialBalance(s: State)
    requires Initial(s)
    ensures Invariant(s) && Balance(s)
  {
    UnusedStats(s.stats);
    QuietPending(s);
    assert SumOver(s.heap, Header) == 0;
    Exact(0, 0);
  }

  lemma UnusedStats(stats: map<Tid, Stats>)
    requires forall t :: t in stats ==> stats[t] == Stats(0, 0, 0, 0)
    ensures SumOver(stats, NetCount) == 0 && SumOver(stats, NetBytes) == 0
  {
    forall t | t in stats ensures NetCount(stats[t]) == 0 && NetBytes(stats[t]) == 0 {
      assert stats[t] == Stats(0, 0, 0, 0);
    }
    SumZero(stats, NetCount);
    SumZero(stats, NetBytes);
  }

  lemma QuietPending(s: State)
    requires Quiet(s)
    ensures SumOver(s.pending, PendingCount) == 0 && SumOver(s.pending, PendingBytes) == 0
  {
    forall t | t in s.pending ensures PendingCount(s.pending[t]) == 0 && PendingBytes(s.pending[t]) == 0 {
      assert s.pending[t] == Nothing;
    }
    SumZero(s.pending, PendingCount);
    SumZero(s.pending, PendingBytes);
  }

  // ---------------------------------------------------------------------------------------------
  // Who must have a slot
  // ---------------------------------------------------------------------------------------------

  /** Summed over the slots, allocated minus freed is what is live, modulo 2^64. */
  ghost predicate Conserved(s: State) {
    && Congruent(SumOver(s.stats, NetCount), |s.heap|)
    && Congruent(SumOver(s.stats, NetBytes), SumOver(s.heap, Header))
  }

  ghost predicate RunBy(callers: set<Tid>, run: seq<Event>) {
    forall i :: 0 <= i < |run| ==> run[i].t in callers
  }

  lemma {:induction false} NothingMissed(start: State, callers: set<Tid>, run: seq<Event>, s: State)
    requires Reaches(start, run, s) && RunBy(callers, run) && callers <= start.stats.Keys
    ensures s.missedCount == start.missedCount && s.missedBytes == start.missedBytes
    decreases |run|
  {
    if run != [] {
      assert run[0].t in callers;
      assert forall i :: 0 <= i < |run[1..]| ==> run[1..][i] == run[i + 1];
      NothingMissed(Next(start, run[0].t, run[0].a), callers, run[1..], s);
    }
  }

  /** Calls by threads with slots conserve, whichever thread frees or resizes a block. */
  lemma SlotsConserve(start: State, callers: set<Tid>, run: seq<Event>, s: State)
    requires Initial(start) && Reaches(start, run, s) && Quiet(s)
    requires RunBy(callers, run) && callers <= start.stats.Keys
    ensures Conserved(s)
  {
    StatsAccountForBlocks(start, run, s);
    NothingMissed(start, callers, run, s);
    QuietPending(s);
  }

  /** One allocation by a thread without a slot, and nothing else. */
  ghost function LoneAllocation(t: Tid): seq<Event> {
    [Event(t, Make(1, 0, [])), Event(t, CountMade)]
  }

  lemma LoneAllocationIsMissed(start: State, t: Tid) returns (s: State)
    requires Initial(start) && t in start.pending && t !in start.stats
    ensures Reaches(start, LoneAllocation(t), s) && Quiet(s) && !Conserved(s)
  {
    var mid := Next(start, t, Make(1, 0, []));
    s := Next(mid, t, CountMade);
    assert LoneAllocation(t)[1..] == [Event(t, CountMade)];
    assert Reaches(mid, LoneAllocation(t)[1..], s);
    UnusedStats(s.stats);
    assert s.heap.Keys == {1};
    CongruentIsSameWord(0, 1);
  }

  ghost predicate AlwaysConserves(start: State, callers: set<Tid>) {
    forall run, s :: Reaches(start, run, s) && RunBy(callers, run) && Quiet(s) ==> Conserved(s)
  }

  /** The statistics are conserved in every run by `callers` exactly when each of them has a slot. */
  lemma ConservedIffCallersHaveSlots(start: State, callers: set<Tid>)
    requires Initial(start) && callers <= start.pending.Keys
    ensures AlwaysConserves(start, callers) <==> callers <= start.stats.Keys
  {
    if callers <= start.stats.Keys {
      forall run, s | Reaches(start, run, s) && RunBy(callers, run) && Quiet(s) ensures Conserved(s) {
        SlotsConserve(start, callers, run, s);
      }
    } else {
      var t := Outsider(callers, start.stats.Keys);
      var s := LoneAllocationIsMissed(start, t);
      assert RunBy(callers, LoneAllocation(t));
    }
  }

  lemma Outsider<T>(a: set<T>, b: set<T>) returns (x: T)
    requires !(a <= b)
    ensures x in a && x !in b
  {
    x :| x in a && x !in b;
  }

  // ---------------------------------------------------------------------------------------------
  // A call without interruption does what the method of the class AllocatorImpl promises
  // ---------------------------------------------------------------------------------------------

  lemma TwoSteps(s: State, t: Tid, a: Action, b: Action, s': State)
    requires Enabled(s, t, a) && Enabled(Next(s, t, a), t, b) && s' == Next(Next(s, t, a), t, b)
    ensures Reaches(s, [Event(t, a), Event(t, b)], s')
  {
    assert [Event(t, a), Event(t, b)][1..] == [Event(t, b)];
    assert Reaches(Next(s, t, a), [Event(t, b)], s');
  }

  /** `s` with another heap and other statistics, but for what slotless threads missed. */
  ghost predicate After(s: State, s': State, heap: map<Ptr, Block>, stats: map<Tid, Stats>) {
    s'.heap == heap && s'.stats == stats && s'.pending == s.pending
  }

  lemma AllocateIsRun(s: State, t: Tid, p: Ptr, size: nat, body: seq<bv8>) returns (s': State)
    requires t in s.pending && s.pending[t] == Nothing && p != NULL && p !in s.heap && |body| == size
    ensures Reaches(s, [Event(t, Make(p, size, body)), Event(t, CountMade)], s')
    ensures After(s, s', s.heap[p := Block(size, body)], CountIn(s.stats, t, size))
  {
    s' := Next(Next(s, t, Make(p, size, body)), t, CountMade);
    TwoSteps(s, t, Make(p, size, body), CountMade, s');
  }

  lemma FreeIsRun(s: State, t: Tid, p: Ptr) returns (s': State)
    requires t in s.pending && s.pending[t] == Nothing && Owned(s, p)
    ensures Reaches(s, [Event(t, CountGone(p)), Event(t, Release)], s')
    ensures After(s, s', s.heap - {p}, CountOut(s.stats, t, s.heap[p].header))
  {
    s' := Next(Next(s, t, CountGone(p)), t, Release);
    TwoSteps(s, t, CountGone(p), Release, s');
  }

  lemma ReAllocateIsRun(s: State, t: Tid, p: Ptr, q: Ptr, size: nat, body: seq<bv8>) returns (s': State)
    requires t in s.pending && s.pending[t] == Nothing && Owned(s, p)
    requires q != NULL && (q == p || q !in s.heap) && Resized(s.heap[p].body, size, body)
    ensures Reaches(s, [Event(t, Resize(p, q, size, body)), Event(t, Recount)], s')
    ensures After(s, s', (s.heap - {p})[q := Block(size, body)], CountIn(CountOut(s.stats, t, s.heap[p].header), t, size))
  {
    s' := Next(Next(s, t, Resize(p, q, size, body)), t, Recount);
    TwoSteps(s, t, Resize(p, q, size, body), Recount, s');
  }

  // ---------------------------------------------------------------------------------------------
  // Headers and contents
  // ---------------------------------------------------------------------------------------------

  /** The size last requested for the block at `p`, by the calls of the run; `was` before it. */
  function LastRequest(run: seq<Event>, p: Ptr, was: nat): nat {
    if run == [] then was
    else match run[0].a
      case Make(q, size, _) => LastRequest(run[1..], p, if q == p then size else was)
      case Resize(_, q, size, _) => LastRequest(run[1..], p, if q == p then size else was)
      case _ => LastRequest(run[1..], p, was)
  }

  lemma {:induction false} HeaderFollowsRequests(start: State, run: seq<Event>, s: State, p: Ptr, was: nat)
    requires Reaches(start, run, s) && p in s.heap
    requires p in start.heap ==> start.heap[p].header == was
    ensures s.heap[p].header == LastRequest(run, p, was)
    decreases |run|
  {
    if run != [] {
      var next := Next(start, run[0].t, run[0].a);
      var now := match run[0].a
        case Make(q, size, _) => if q == p then size else was
        case Resize(_, q, size, _) => if q == p then size else was
        case _ => was;
      HeaderFollowsRequests(next, run[1..], s, p, now);
    }
  }

  /** The word before each live pointer holds the size last requested for the block there, and the block is that long. */
  lemma HeaderIsLastRequest(start: State, run: seq<Event>, s: State, p: Ptr)
    requires Initial(start) && Reaches(start, run, s) && p in s.heap
    ensures s.heap[p].header == LastRequest(run, p, 0) == |s.heap[p].body|
  {
    HeaderFollowsRequests(start, run, s, p, 0);
    StatsAccountForBlocks(start, run, s);
  }

  /** Where the block that starts at `p` is after the run. */
  function Follow(run: seq<Event>, p: Ptr): Ptr {
    if run == [] then p
    else if run[0].a.Resize? && run[0].a.p == p then Follow(run[1..], run[0].a.q)
    else Follow(run[1..], p)
  }

  /** The least of `low` and the sizes that block is given. */
  function LeastSize(run: seq<Event>, p: Ptr, low: nat): nat {
    if run == [] then low
    else if run[0].a.Resize? && run[0].a.p == p then LeastSize(run[1..], run[0].a.q, if run[0].a.size < low then run[0].a.size else low)
    else LeastSize(run[1..], p, low)
  }

  /** That block is not freed in the run. */
  predicate Kept(run: seq<Event>, p: Ptr) {
    run == [] ||
    if run[0].a.Resize? && run[0].a.p == p then Kept(run[1..], run[0].a.q)
    else run[0].a != CountGone(p) && Kept(run[1..], p)
  }

  /** The least size is one of those sizes, and none of them is less. */
  lemma {:induction false} LeastSizeIsLeast(run: seq<Event>, p: Ptr, low: nat)
    ensures LeastSize(run, p, low) == low || LeastSize(run, p, low) in SizesOf(run, p)
    ensures LeastSize(run, p, low) <= low && forall n :: n in SizesOf(run, p) ==> LeastSize(run, p, low) <= n
  {
    if run != [] {
      if run[0].a.Resize? && run[0].a.p == p {
        LeastSizeIsLeast(run[1..], run[0].a.q, if run[0].a.size < low then run[0].a.size else low);
      } else {
        LeastSizeIsLeast(run[1..], p, low);
      }
    }
  }

  /** The sizes that block is reallocated to, in order. */
  function SizesOf(run: seq<Event>, p: Ptr): seq<nat> {
    if run == [] then []
    else if run[0].a.Resize? && run[0].a.p == p then [run[0].a.size] + SizesOf(run[1..], run[0].a.q)
    else SizesOf(run[1..], p)
  }

  lemma FollowFirst(run: seq<Event>, p: Ptr, i: nat)
    requires i < |run|
    ensures Follow(run[..i + 1], p) == Follow(run[1..][..i], Follow([run[0]], p))
  {
    assert run[..i + 1][0] == run[0] && run[..i + 1][1..] == run[1..][..i];
    assert [run[0]][1..] == [];
  }

  /** It is kept unless free is called on the address it has then. */
  lemma {:induction false} KeptUnlessFreed(run: seq<Event>, p: Ptr)
    ensures Kept(run, p) <==> forall i :: 0 <= i < |run| ==> run[i].a != CountGone(Follow(run[..i], p))
  {
    if run != [] {
      var p' := Follow([run[0]], p);
      assert [run[0]][1..] == [];
      KeptUnlessFreed(run[1..], p');
      assert run[..0] == [];
      forall i | 0 <= i < |run| - 1 ensures run[1..][i] == run[i + 1] && Follow(run[1..][..i], p') == Follow(run[..i + 1], p) {
        FollowFirst(run, p, i);
      }
      if Kept(run, p) {
        forall i | 0 <= i < |run| ensures run[i].a != CountGone(Follow(run[..i], p)) {
          if i > 0 {
            FollowFirst(run, p, i - 1);
            assert run[1..][i - 1].a != CountGone(Follow(run[1..][..i - 1], p'));
          }
        }
      }
    }
  }

  /** However often reAllocate moves a block, the bytes that every size had room for are unchanged. */
  lemma {:induction false} ContentsSurvive(start: State, run: seq<Event>, s: State, p: Ptr, low: nat)
    requires Invariant(start) && Reaches(start, run, s) && Owned(start, p) && Kept(run, p) && low <= |start.heap[p].body|
    ensures Owned(s, Follow(run, p))
    ensures LeastSize(run, p, low) <= low && LeastSize(run, p, low) <= |s.heap[Follow(run, p)].body|
    ensures s.heap[Follow(run, p)].body[..LeastSize(run, p, low)] == start.heap[p].body[..LeastSize(run, p, low)]
    decreases |run|
  {
    if run != [] {
      var (t, a) := (run[0].t, run[0].a);
      var next := Next(start, t, a);
      StepKeepsInvariant(start, t, a);
      if a.Resize? && a.p == p {
        var low' := if a.size < low then a.size else low;
        ContentsSurvive(next, run[1..], s, a.q, low');
        assert next.heap[a.q].body[..low'] == start.heap[p].body[..low'];
        PrefixOfPrefix(s.heap[Follow(run, p)].body, next.heap[a.q].body, start.heap[p].body, low', LeastSize(run, p, low));
      } else {
        StepKeepsOwned(start, t, a, p);
        ContentsSurvive(next, run[1..], s, p, low);
      }
    }
  }

  lemma StepKeepsOwned(s: State, t: Tid, a: Action, p: Ptr)
    requires Invariant(s) && Enabled(s, t, a) && Owned(s, p) && a != CountGone(p) && !(a.Resize? && a.p == p)
    ensures Owned(Next(s, t, a), p) && Next(s, t, a).heap[p] == s.heap[p]
  {
  }

  lemma PrefixOfPrefix(x: seq<bv8>, y: seq<bv8>, z: seq<bv8>, low: nat, n: nat)
    requires n <= low <= |y| && low <= |z| && n <= |x|
    requires y[..low] == z[..low] && x[..n] == y[..n]
    ensures x[..n] == z[..n]
  {
    assert y[..n] == y[..low][..n] && z[..n] == z[..low][..n];
  }
}
