// AllocatorImpl under any interleaving of its callers (src/base/allocator_impl.cpp:18-91). A call works on its own
// block and on its thread's own statistics, so it is two steps: one on the heap and one on the statistics, in the
// order the source has them. A block may be freed or reallocated by another thread than the one that allocated it.
module AllocatorModel {
  import opened Sums
  import opened Basics

  datatype Stats = Stats(allocatedSize: int, allocatedCount: int, freedSize: int, freedCount: int)

  // The counters are uint64_t and wrap.

  function Allocated(v: Stats, size: nat): Stats {
    v.(allocatedSize := Wrap(v.allocatedSize + size), allocatedCount := Wrap(v.allocatedCount + 1))
  }

  function Freed(v: Stats, size: nat): Stats {
    v.(freedSize := Wrap(v.freedSize + size), freedCount := Wrap(v.freedCount + 1))
  }

  /** A thread without a statistics slot counts nothing. */
  function CountIn(stats: map<Tid, Stats>, t: Tid, size: nat): map<Tid, Stats> {
    if t in stats then stats[t := Allocated(stats[t], size)] else stats
  }

  function CountOut(stats: map<Tid, Stats>, t: Tid, size: nat): map<Tid, Stats> {
    if t in stats then stats[t := Freed(stats[t], size)] else stats
  }

  /** A live block: the size header before the user pointer, and the user's bytes. */
  datatype Block = Block(header: nat, body: seq<bv8>)

  /** realloc's contract: the bytes both sizes have are kept, the rest of a larger block is arbitrary. */
  predicate Resized(old_: seq<bv8>, size: nat, new_: seq<bv8>) {
    && |new_| == size
    && var n := if |old_| < size then |old_| else size; new_[..n] == old_[..n]
  }

  datatype Pending =
    | Nothing
    | Counting(size: nat)               // block made, not yet counted
    | Releasing(p: Ptr, size: nat)      // counted out, not yet freed
    | Recounting(was: nat, now: nat)    // block resized, not yet counted

  datatype State = State(
    heap: map<Ptr, Block>,
    stats: map<Tid, Stats>,             // the statistics of the threads that have a slot
    pending: map<Tid, Pending>,
    missedCount: int, missedBytes: int) // aux: what threads without a slot did not count

  datatype Action =
    | Make(p: Ptr, size: nat, body: seq<bv8>)
    | CountMade
    | CountGone(p: Ptr)
    | Release
    | Resize(p: Ptr, q: Ptr, size: nat, body: seq<bv8>)
    | Recount

  datatype Event = Event(t: Tid, a: Action)

  /** The caller owns the block it passes: nobody is freeing it. */
  ghost predicate Owned(s: State, p: Ptr) {
    p in s.heap && forall t :: t in s.pending && s.pending[t].Releasing? ==> s.pending[t].p != p
  }

  ghost predicate Enabled(s: State, t: Tid, a: Action) {
    t in s.pending &&
    match a
    case Make(p, size, body) => s.pending[t] == Nothing && p != NULL && p !in s.heap && |body| == size
    case CountMade => s.pending[t].Counting?
    case CountGone(p) => s.pending[t] == Nothing && Owned(s, p)
    case Release => s.pending[t].Releasing?
    case Resize(p, q, size, body) =>
      s.pending[t] == Nothing && Owned(s, p) && q != NULL && (q == p || q !in s.heap) && Resized(s.heap[p].body, size, body)
    case Recount => s.pending[t].Recounting?
  }

  function Set(s: State, t: Tid, x: Pending): State {
    s.(pending := s.pending[t := x])
  }

  /** Failed calls, and null pointers, change nothing and are not steps; reAllocate(nullptr, n) is allocate(n). */
  ghost function Next(s: State, t: Tid, a: Action): State
    requires Enabled(s, t, a)
  {
    match a
    case Make(p, size, body) =>
      Set(s, t, Counting(size)).(heap := s.heap[p := Block(size, body)])
    case CountMade =>
      var size := s.pending[t].size;
      Set(s, t, Nothing).(stats := CountIn(s.stats, t, size),
        missedCount := s.missedCount + (if t in s.stats then 0 else 1),
        missedBytes := s.missedBytes + (if t in s.stats then 0 else size))
    case CountGone(p) =>
      var size := s.heap[p].header;
      Set(s, t, Releasing(p, size)).(stats := CountOut(s.stats, t, size),
        missedCount := s.missedCount - (if t in s.stats then 0 else 1),
        missedBytes := s.missedBytes - (if t in s.stats then 0 else size))
    case Release =>
      var p := s.pending[t].p;
      Set(s, t, Nothing).(heap := s.heap - {p})
    case Resize(p, q, size, body) =>
      Set(s, t, Recounting(s.heap[p].header, size)).(heap := (s.heap - {p})[q := Block(size, body)])
    case Recount =>
      var Recounting(was, now) := s.pending[t];
      Set(s, t, Nothing).(stats := CountIn(CountOut(s.stats, t, was), t, now),
        missedBytes := s.missedBytes + (if t in s.stats then 0 else now - was))
  }

  ghost predicate Reaches(start: State, run: seq<Event>, s: State)
    decreases |run|
  {
    if run == [] then s == start
    else Enabled(start, run[0].t, run[0].a) && Reaches(Next(start, run[0].t, run[0].a), run[1..], s)
  }

  /** No block yet, no call in progress, all counters zero. */
  ghost predicate Initial(s: State) {
    && s.heap == map[] && s.missedCount == 0 && s.missedBytes == 0
    && (forall t :: t in s.stats ==> s.stats[t] == Stats(0, 0, 0, 0))
    && (forall t :: t in s.pending ==> s.pending[t] == Nothing)
  }

  ghost predicate Quiet(s: State) {
    forall t :: t in s.pending ==> s.pending[t] == Nothing
  }

  // ---------------------------------------------------------------------------------------------
  // Sums over the slots
  // ---------------------------------------------------------------------------------------------

  function NetCount(v: Stats): nat { Wrap(v.allocatedCount - v.freedCount) }

  function NetBytes(v: Stats): nat { Wrap(v.allocatedSize - v.freedSize) }

  function Header(b: Block): nat { b.header }

  function PendingCount(x: Pending): nat {
    if x.Counting? || x.Releasing? then 1 else 0
  }

  function PendingBytes(x: Pending): nat {
    match x
    case Nothing => 0
    case Counting(size) => size
    case Releasing(_, size) => size
    case Recounting(was, now) => Wrap(now - was)
  }

  ghost function Blocks(s: State): int {
    SumOver(s.stats, NetCount) + SumOver(s.pending, PendingCount) + s.missedCount
  }

  ghost function Bytes(s: State): int {
    SumOver(s.stats, NetBytes) + SumOver(s.pending, PendingBytes) + s.missedBytes
  }

  ghost predicate Invariant(s: State) {
    // the word before each pointer holds the block's size
    && (forall p :: p in s.heap ==> p != NULL && s.heap[p].header == |s.heap[p].body|)
    // a block being freed is live, and only one thread is freeing it
    && (forall t :: t in s.pending && s.pending[t].Releasing? ==>
          s.pending[t].p in s.heap && s.heap[s.pending[t].p].header == s.pending[t].size)
    && (forall t, u :: t in s.pending && u in s.pending && t != u && s.pending[t].Releasing? && s.pending[u].Releasing? ==>
          s.pending[t].p != s.pending[u].p)
  }

  ghost predicate Balance(s: State) {
    Congruent(Blocks(s), |s.heap|) && Congruent(Bytes(s), SumOver(s.heap, Header))
  }

  lemma StepKeepsInvariant(s: State, t: Tid, a: Action)
    requires Invariant(s) && Enabled(s, t, a)
    ensures Invariant(Next(s, t, a))
  {
  }

  /** Exchanging congruent terms keeps a sum congruent. */
  lemma Exchange(x: int, y: int, n: int, m: int)
    requires Congruent(x, n) && Congruent(y - x, m - n)
    ensures Congruent(y, m)
  {
    var q := MultipleOf(x, n);
    var r := MultipleOf(y - x, m - n);
    CongruentByMultiple(y, m, q + r);
  }

  lemma NetIn(v: Stats, size: nat)
    ensures Congruent(NetCount(Allocated(v, size)) - NetCount(v), 1)
    ensures Congruent(NetBytes(Allocated(v, size)) - NetBytes(v), size)
  {
    NetShift(v.allocatedCount, v.freedCount, 1);
    NetShift(v.allocatedSize, v.freedSize, size);
  }

  lemma NetShift(a: int, f: int, d: int)
    ensures Congruent(Wrap(Wrap(a + d) - f) - Wrap(a - f), d)
    ensures Congruent(Wrap(a - Wrap(f + d)) - Wrap(a - f), 0 - d)
  {
    var x := (a + d) / WORD;
    var y := (a - f) / WORD;
    var z := (Wrap(a + d) - f) / WORD;
    CongruentByMultiple(Wrap(Wrap(a + d) - f) - Wrap(a - f), d, y - x - z);
    var x' := (f + d) / WORD;
    var z' := (a - Wrap(f + d)) / WORD;
    CongruentByMultiple(Wrap(a - Wrap(f + d)) - Wrap(a - f), 0 - d, y + x' - z');
  }

  lemma NetOut(v: Stats, size: nat)
    ensures Congruent(NetCount(Freed(v, size)) - NetCount(v), -1)
    ensures Congruent(NetBytes(Freed(v, size)) - NetBytes(v), 0 - size)
  {
    NetShift(v.allocatedCount, v.freedCount, 1);
    NetShift(v.allocatedSize, v.freedSize, size);
  }

  // ---------------------------------------------------------------------------------------------
  // Each step keeps the balance
  // ---------------------------------------------------------------------------------------------

  lemma StatsMove(s: State, t: Tid, v: Stats)
    ensures SumOver(s.stats[t := v], NetCount) == SumOver(s.stats, NetCount) - (if t in s.stats then NetCount(s.stats[t]) else 0) + NetCount(v)
    ensures SumOver(s.stats[t := v], NetBytes) == SumOver(s.stats, NetBytes) - (if t in s.stats then NetBytes(s.stats[t]) else 0) + NetBytes(v)
  {
    SumPut(s.stats, t, v, NetCount);
    SumPut(s.stats, t, v, NetBytes);
  }

  lemma PendingMove(s: State, t: Tid, x: Pending)
    requires t in s.pending
    ensures SumOver(s.pending[t := x], PendingCount) == SumOver(s.pending, PendingCount) - PendingCount(s.pending[t]) + PendingCount(x)
    ensures SumOver(s.pending[t := x], PendingBytes) == SumOver(s.pending, PendingBytes) - PendingBytes(s.pending[t]) + PendingBytes(x)
  {
    SumPut(s.pending, t, x, PendingCount);
    SumPut(s.pending, t, x, PendingBytes);
  }

  /** The sums over the statistics move by one block of `size` bytes if the thread has a slot. */
  lemma CountInMoves(s: State, t: Tid, size: nat)
    ensures Congruent(SumOver(CountIn(s.stats, t, size), NetCount) - SumOver(s.stats, NetCount), if t in s.stats then 1 else 0)
    ensures Congruent(SumOver(CountIn(s.stats, t, size), NetBytes) - SumOver(s.stats, NetBytes), if t in s.stats then size else 0)
  {
    if t in s.stats {
      StatsMove(s, t, Allocated(s.stats[t], size));
      NetIn(s.stats[t], size);
    } else {
      CongruentByMultiple(0, 0, 0);
    }
  }

  lemma CountOutMoves(s: State, t: Tid, size: nat)
    ensures Congruent(SumOver(CountOut(s.stats, t, size), NetCount) - SumOver(s.stats, NetCount), if t in s.stats then -1 else 0)
    ensures Congruent(SumOver(CountOut(s.stats, t, size), NetBytes) - SumOver(s.stats, NetBytes), if t in s.stats then 0 - size else 0)
  {
    if t in s.stats {
      StatsMove(s, t, Freed(s.stats[t], size));
      NetOut(s.stats[t], size);
    } else {
      CongruentByMultiple(0, 0, 0);
    }
  }

  lemma CongruentAdd(x: int, y: int, a: int, b: int)
    requires Congruent(x, a) && Congruent(y, b)
    ensures Congruent(x + y, a + b)
  {
    var q := MultipleOf(x, a);
    var r := MultipleOf(y, b);
    CongruentByMultiple(x + y, a + b, q + r);
  }

  /** What is exactly `d` more is congruent to it. */
  lemma Exact(x: int, d: int)
    requires x == d
    ensures Congruent(x, d)
  {
    CongruentByMultiple(x, d, 0);
  }

  /** A step from `s` to `s'` accounts for `d` more blocks and `e` more bytes. */
  ghost predicate Moves(s: State, s': State, d: int, e: int) {
    Congruent(Blocks(s') - Blocks(s), d) && Congruent(Bytes(s') - Bytes(s), e)
  }

  lemma MovesKeepBalance(s: State, s': State, d: int, e: int)
    requires Balance(s) && Moves(s, s', d, e)
    requires |s'.heap| == |s.heap| + d && SumOver(s'.heap, Header) == SumOver(s.heap, Header) + e
    ensures Balance(s')
  {
    Exchange(Blocks(s), Blocks(s'), |s.heap|, |s'.heap|);
    Exchange(Bytes(s), Bytes(s'), SumOver(s.heap, Header), SumOver(s'.heap, Header));
  }

  lemma MakeMoves(s: State, t: Tid, p: Ptr, size: nat, body: seq<bv8>)
    requires Enabled(s, t, Make(p, size, body))
    ensures Moves(s, Next(s, t, Make(p, size, body)), 1, size)
  {
    var s' := Next(s, t, Make(p, size, body));
    PendingMove(s, t, Counting(size));
    Exact(Blocks(s') - Blocks(s), 1);
    Exact(Bytes(s') - Bytes(s), size);
  }

  lemma CountMadeMoves(s: State, t: Tid)
    requires Enabled(s, t, CountMade)
    ensures Moves(s, Next(s, t, CountMade), 0, 0)
  {
    var s' := Next(s, t, CountMade);
    var size := s.pending[t].size;
    PendingMove(s, t, Nothing);
    CountInMoves(s, t, size);
    var d: int := if t in s.stats then 1 else 0;
    var e: int := if t in s.stats then size else 0;
    Exact(0 - d, 0 - d);
    Exact(0 - e, 0 - e);
    CongruentAdd(SumOver(s'.stats, NetCount) - SumOver(s.stats, NetCount), 0 - d, d, 0 - d);
    CongruentAdd(SumOver(s'.stats, NetBytes) - SumOver(s.stats, NetBytes), 0 - e, e, 0 - e);
  }

  lemma CountGoneMoves(s: State, t: Tid, p: Ptr)
    requires Enabled(s, t, CountGone(p))
    ensures Moves(s, Next(s, t, CountGone(p)), 0, 0)
  {
    var s' := Next(s, t, CountGone(p));
    var size := s.heap[p].header;
    PendingMove(s, t, Releasing(p, size));
    CountOutMoves(s, t, size);
    var d: int := if t in s.stats then 1 else 0;
    var e: int := if t in s.stats then size else 0;
    Exact(d, d);
    Exact(e, e);
    CongruentAdd(SumOver(s'.stats, NetCount) - SumOver(s.stats, NetCount), d, 0 - d, d);
    CongruentAdd(SumOver(s'.stats, NetBytes) - SumOver(s.stats, NetBytes), e, 0 - e, e);
  }

  lemma ReleaseMoves(s: State, t: Tid)
    requires Enabled(s, t, Release)
    ensures Moves(s, Next(s, t, Release), -1, 0 - s.pending[t].size)
  {
    var s' := Next(s, t, Release);
    PendingMove(s, t, Nothing);
    Exact(Blocks(s') - Blocks(s), -1);
    Exact(Bytes(s') - Bytes(s), 0 - s.pending[t].size);
  }

  lemma ResizeMoves(s: State, t: Tid, p: Ptr, q: Ptr, size: nat, body: seq<bv8>)
    requires Enabled(s, t, Resize(p, q, size, body))
    ensures Moves(s, Next(s, t, Resize(p, q, size, body)), 0, size - s.heap[p].header)
  {
    var s' := Next(s, t, Resize(p, q, size, body));
    var was := s.heap[p].header;
    PendingMove(s, t, Recounting(was, size));
    Exact(Blocks(s') - Blocks(s), 0);
    CongruentByMultiple(Wrap(size - was), size - was, 0 - (size - was) / WORD);
  }

  lemma RecountBlocks(s: State, t: Tid, was: nat, now: nat)
    requires t in s.pending && s.pending[t] == Recounting(was, now)
    ensures Congruent(Blocks(Next(s, t, Recount)) - Blocks(s), 0)
  {
    var s' := Next(s, t, Recount);
    var mid := s.(stats := CountOut(s.stats, t, was));
    PendingMove(s, t, Nothing);
    CountOutMoves(s, t, was);
    CountInMoves(mid, t, now);
    var d: int := if t in s.stats then 1 else 0;
    CongruentAdd(SumOver(mid.stats, NetCount) - SumOver(s.stats, NetCount), SumOver(s'.stats, NetCount) - SumOver(mid.stats, NetCount), 0 - d, d);
  }

  /** Recounting counts the old size out and the new size in. */
  lemma RecountStats(s: State, t: Tid, was: nat, now: nat, d: int)
    requires d == if t in s.stats then now - was else 0
    ensures Congruent(SumOver(CountIn(CountOut(s.stats, t, was), t, now), NetBytes) - SumOver(s.stats, NetBytes), d)
  {
    var mid := s.(stats := CountOut(s.stats, t, was));
    CountOutMoves(s, t, was);
    CountInMoves(mid, t, now);
    CongruentAdd(SumOver(mid.stats, NetBytes) - SumOver(s.stats, NetBytes),
      SumOver(CountIn(mid.stats, t, now), NetBytes) - SumOver(mid.stats, NetBytes),
      if t in s.stats then 0 - was else 0, if t in s.stats then now else 0);
  }

  lemma RecountBytes(s: State, t: Tid, was: nat, now: nat)
    requires t in s.pending && s.pending[t] == Recounting(was, now)
    ensures Congruent(Bytes(Next(s, t, Recount)) - Bytes(s), 0)
  {
    var s' := Next(s, t, Recount);
    PendingMove(s, t, Nothing);
    var d := if t in s.stats then now - was else 0;
    RecountStats(s, t, was, now, d);
    CongruentByMultiple(now - was - d - Wrap(now - was), 0 - d, (now - was) / WORD);
    CongruentAdd(SumOver(s'.stats, NetBytes) - SumOver(s.stats, NetBytes), now - was - d - Wrap(now - was), d, 0 - d);
  }

  lemma MakeBalances(s: State, t: Tid, p: Ptr, size: nat, body: seq<bv8>)
    requires Balance(s) && Enabled(s, t, Make(p, size, body))
    ensures Balance(Next(s, t, Make(p, size, body)))
  {
    MakeMoves(s, t, p, size, body);
    SumPut(s.heap, p, Block(size, body), Header);
    MovesKeepBalance(s, Next(s, t, Make(p, size, body)), 1, size);
  }

  lemma ReleaseBalances(s: State, t: Tid)
    requires Invariant(s) && Balance(s) && Enabled(s, t, Release)
    ensures Balance(Next(s, t, Release))
  {
    ReleaseMoves(s, t);
    SumDrop(s.heap, s.pending[t].p, Header);
    MovesKeepBalance(s, Next(s, t, Release), -1, 0 - s.pending[t].size);
  }

  lemma ResizeBalances(s: State, t: Tid, p: Ptr, q: Ptr, size: nat, body: seq<bv8>)
    requires Balance(s) && Enabled(s, t, Resize(p, q, size, body))
    ensures Balance(Next(s, t, Resize(p, q, size, body)))
  {
    ResizeMoves(s, t, p, q, size, body);
    SumDrop(s.heap, p, Header);
    SumPut(s.heap - {p}, q, Block(size, body), Header);
    var s' := Next(s, t, Resize(p, q, size, body));
    assert |s.heap - {p}| == |s.heap| - 1;
    assert |s'.heap| == |s.heap|;
    MovesKeepBalance(s, s', 0, size - s.heap[p].header);
  }

  lemma StepBalances(s: State, t: Tid, a: Action)
    requires Invariant(s) && Balance(s) && Enabled(s, t, a)
    ensures Balance(Next(s, t, a))
  {
    match a
    case Make(p, size, body) => MakeBalances(s, t, p, size, body);
    case Release => ReleaseBalances(s, t);
    case Resize(p, q, size, body) => ResizeBalances(s, t, p, q, size, body);
    case CountMade =>
      CountMadeMoves(s, t);
      MovesKeepBalance(s, Next(s, t, CountMade), 0, 0);
    case CountGone(p) =>
      CountGoneMoves(s, t, p);
      MovesKeepBalance(s, Next(s, t, CountGone(p)), 0, 0);
    case Recount =>
      RecountBlocks(s, t, s.pending[t].was, s.pending[t].now);
      RecountBytes(s, t, s.pending[t].was, s.pending[t].now);
      MovesKeepBalance(s, Next(s, t, Recount), 0, 0);
  }
}
