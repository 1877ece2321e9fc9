// Each thread's statistics, field by field: they count that thread's own calls.
module AllocatorCounts {
  import opened Sums
  import opened Basics
  import opened AllocatorModel

  /** How many blocks thread `t` allocated: a reallocation allocates one and frees one. */
  function AllocCalls(run: seq<Event>, t: Tid): nat {
    if run == [] then 0
    else (if run[0].t == t && (run[0].a.Make? || run[0].a.Resize?) then 1 else 0) + AllocCalls(run[1..], t)
  }

  function FreeCalls(run: seq<Event>, t: Tid): nat {
    if run == [] then 0
    else (if run[0].t == t && (run[0].a.CountGone? || run[0].a.Resize?) then 1 else 0) + FreeCalls(run[1..], t)
  }

  /** The bytes it asked for. */
  function AllocBytes(run: seq<Event>, t: Tid): nat {
    if run == [] then 0
    else (if run[0].t == t && (run[0].a.Make? || run[0].a.Resize?) then run[0].a.size else 0) + AllocBytes(run[1..], t)
  }

  /** The bytes in the blocks it gave back, each block as long as it is at that step. */
  ghost function FreeBytes(s: State, run: seq<Event>, t: Tid): nat
    decreases |run|
  {
    if run == [] || !Enabled(s, run[0].t, run[0].a) then 0
    else
      (if run[0].t == t && (run[0].a.CountGone? || run[0].a.Resize?) then |s.heap[run[0].a.p].body| else 0)
      + FreeBytes(Next(s, run[0].t, run[0].a), run[1..], t)
  }

  // ---------------------------------------------------------------------------------------------
  // What a call in progress has yet to count
  // ---------------------------------------------------------------------------------------------

  function InProgress(s: State, t: Tid): Pending {
    if t in s.pending then s.pending[t] else Nothing
  }

  /** The statistics once the call in progress has counted, without wrapping. */
  function Settled(v: Stats, x: Pending): Stats {
    match x
    case Counting(size) => v.(allocatedSize := v.allocatedSize + size, allocatedCount := v.allocatedCount + 1)
    case Recounting(was, now) =>
      Stats(v.allocatedSize + now, v.allocatedCount + 1, v.freedSize + was, v.freedCount + 1)
    case _ => v
  }

  predicate InRange(v: Stats) {
    && 0 <= v.allocatedSize < WORD && 0 <= v.allocatedCount < WORD
    && 0 <= v.freedSize < WORD && 0 <= v.freedCount < WORD
  }

  /** `w` is `v` with this many calls and bytes counted; `carries` is how often each field wrapped. */
  predicate Grown(v: Stats, w: Stats, allocs: nat, allocBytes: nat, frees: nat, freeBytes: nat, carries: Stats) {
    && w.allocatedCount == v.allocatedCount + allocs - WORD * carries.allocatedCount
    && w.allocatedSize == v.allocatedSize + allocBytes - WORD * carries.allocatedSize
    && w.freedCount == v.freedCount + frees - WORD * carries.freedCount
    && w.freedSize == v.freedSize + freeBytes - WORD * carries.freedSize
  }

  lemma AllocatedGrows(v: Stats, size: nat) returns (carries: Stats)
    requires InRange(v)
    ensures InRange(Allocated(v, size)) && Grown(v, Allocated(v, size), 1, size, 0, 0, carries)
  {
    var count := WrapCarries(v.allocatedCount + 1);
    var bytes := WrapCarries(v.allocatedSize + size);
    carries := Stats(bytes, count, 0, 0);
  }

  lemma FreedGrows(v: Stats, size: nat) returns (carries: Stats)
    requires InRange(v)
    ensures InRange(Freed(v, size)) && Grown(v, Freed(v, size), 0, 0, 1, size, carries)
  {
    var count := WrapCarries(v.freedCount + 1);
    var bytes := WrapCarries(v.freedSize + size);
    carries := Stats(0, 0, bytes, count);
  }

  lemma GrownTwice(u: Stats, v: Stats, w: Stats, a: nat, ab: nat, f: nat, fb: nat, c: Stats, a': nat, ab': nat, f': nat, fb': nat, c': Stats)
    returns (carries: Stats)
    requires Grown(u, v, a, ab, f, fb, c) && Grown(v, w, a', ab', f', fb', c')
    ensures Grown(u, w, a + a', ab + ab', f + f', fb + fb', carries)
  {
    carries := Stats(c.allocatedSize + c'.allocatedSize, c.allocatedCount + c'.allocatedCount,
      c.freedSize + c'.freedSize, c.freedCount + c'.freedCount);
  }

  /** One step settles to what its own call adds, for the thread that takes it, and to the same for the others. */
  lemma StepSettles(s: State, u: Tid, e: Action, t: Tid) returns (carries: Stats)
    requires Invariant(s) && Enabled(s, u, e) && t in s.stats && InRange(s.stats[t])
    ensures Next(s, u, e).stats.Keys == s.stats.Keys && InRange(Next(s, u, e).stats[t])
    ensures Grown(Settled(s.stats[t], InProgress(s, t)), Settled(Next(s, u, e).stats[t], InProgress(Next(s, u, e), t)),
                  if u == t && (e.Make? || e.Resize?) then 1 else 0, if u == t && (e.Make? || e.Resize?) then e.size else 0,
                  if u == t && (e.CountGone? || e.Resize?) then 1 else 0,
                  if u == t && (e.CountGone? || e.Resize?) then |s.heap[e.p].body| else 0, carries)
  {
    carries := Stats(0, 0, 0, 0);
    if u == t {
      match e
      case CountMade => carries := AllocatedGrows(s.stats[t], s.pending[t].size);
      case CountGone(p) => carries := FreedGrows(s.stats[t], s.heap[p].header);
      case Recount =>
        var Recounting(was, now) := s.pending[t];
        var c := FreedGrows(s.stats[t], was);
        var d := AllocatedGrows(Freed(s.stats[t], was), now);
        carries := GrownTwice(s.stats[t], Freed(s.stats[t], was), Allocated(Freed(s.stats[t], was), now), 0, 0, 1, was, c, 1, now, 0, 0, d);
      case _ =>
    }
  }

  lemma {:induction false} RunSettles(start: State, run: seq<Event>, s: State, t: Tid) returns (carries: Stats)
    requires Invariant(start) && Reaches(start, run, s) && t in start.stats && InRange(start.stats[t])
    ensures s.stats.Keys == start.stats.Keys && InRange(s.stats[t])
    ensures Grown(Settled(start.stats[t], InProgress(start, t)), Settled(s.stats[t], InProgress(s, t)),
                  AllocCalls(run, t), AllocBytes(run, t), FreeCalls(run, t), FreeBytes(start, run, t), carries)
    decreases |run|
  {
    carries := Stats(0, 0, 0, 0);
    if run != [] {
      var (u, e) := (run[0].t, run[0].a);
      StepKeepsInvariant(start, u, e);
      var first := StepSettles(start, u, e, t);
      var rest := RunSettles(Next(start, u, e), run[1..], s, t);
      carries := Stats(first.allocatedSize + rest.allocatedSize, first.allocatedCount + rest.allocatedCount,
        first.freedSize + rest.freedSize, first.freedCount + rest.freedCount);
    }
  }

  /** After any run, a thread that has no call in progress finds in its statistics the number and bytes of its own
      allocations and frees, as 64-bit words, whatever the other threads did; no thread gains or loses a slot. */
  lemma StatsCountOwnCalls(start: State, run: seq<Event>, s: State, t: Tid)
    requires Initial(start) && Reaches(start, run, s) && t in start.stats && InProgress(s, t) == Nothing
    ensures s.stats.Keys == start.stats.Keys
    ensures s.stats[t].allocatedCount == Wrap(AllocCalls(run, t)) && s.stats[t].allocatedSize == Wrap(AllocBytes(run, t))
    ensures s.stats[t].freedCount == Wrap(FreeCalls(run, t)) && s.stats[t].freedSize == Wrap(FreeBytes(start, run, t))
  {
    var carries := RunSettles(start, run, s, t);
    WrappedTo(s.stats[t].allocatedCount, AllocCalls(run, t), carries.allocatedCount);
    WrappedTo(s.stats[t].allocatedSize, AllocBytes(run, t), carries.allocatedSize);
    WrappedTo(s.stats[t].freedCount, FreeCalls(run, t), carries.freedCount);
    WrappedTo(s.stats[t].freedSize, FreeBytes(start, run, t), carries.freedSize);
  }
}
