// LldkThreadLocalBase, one call at a time: the id pool on LldkBitset, the per-thread tables and the vector of all
// tables (src/utilities/lldk_thread_local.cpp). Protocol.dfy has the same operations under any interleaving.
module ThreadLocal {
  import opened Words
  import opened Bitset
  import opened Sums
  import opened Protocol
  import opened GlobalAllocator
  import opened Basics

  const INVALID_ID: uint32 := 2048 // kInvalidInstanceId

  /** The filled slots of the tables, in order. */
  function Filled<S>(slots: seq<Option<S>>): seq<S> {
    if slots == [] then []
    else if slots[0].Some? then [slots[0].value] + Filled(slots[1..])
    else Filled(slots[1..])
  }

  lemma {:induction false} FilledAppend<S>(a: seq<Option<S>>, x: Option<S>)
    ensures Filled(a + [x]) == Filled(a) + if x.Some? then [x.value] else []
  {
    if a == [] {
      assert a + [x] == [x];
    } else {
      FilledAppend(a[1..], x);
      assert (a + [x])[1..] == a[1..] + [x];
    }
  }

  lemma {:induction false} FilledPrefix<S>(a: seq<Option<S>>, n: nat)
    requires n <= |a|
    ensures Filled(a[..n]) <= Filled(a)
    decreases |a| - n
  {
    if n == |a| {
      assert a[..n] == a;
    } else {
      FilledPrefix(a, n + 1);
      FilledAppend(a[..n], a[n]);
      assert a[..n + 1] == a[..n] + [a[n]];
    }
  }

  ghost predicate AllZero<S>(func: S -> int, xs: seq<S>) {
    forall i :: 0 <= i < |xs| ==> func(xs[i]) == 0
  }

  /** A new table. */
  ghost function Blank<S>(): (r: seq<Option<S>>)
    ensures |r| == MAX_INSTANCE_ID && forall j :: 0 <= j < |r| ==> r[j] == None
  {
    seq(MAX_INSTANCE_ID, _ => None)
  }

  /** A thread's row, which is blank before it has a table. */
  ghost function Row<S>(rows: map<Tid, seq<Option<S>>>, t: Tid): (r: seq<Option<S>>)
    requires t in rows ==> |rows[t]| == MAX_INSTANCE_ID
    ensures |r| == MAX_INSTANCE_ID
  {
    if t in rows then rows[t] else Blank()
  }

  class Registry<S> {
    const bits: LldkBitset
    const heap: GlobalAllocator            // where tables come from
    var vec: seq<array<Option<S>>>         // s_vecpppInstances
    var tables: map<Tid, array<Option<S>>> // s_ppInstances of each thread
    ghost var owners: seq<Tid>             // whose table each element of the vector is

    /** The vector holds each thread's table once, and nothing else. */
    ghost predicate Valid()
      reads this, vec
    {
      && bits.Valid() && bits.kSize == INVALID_ID
      && (forall i :: 0 <= i < |vec| ==> vec[i].Length == MAX_INSTANCE_ID && vec[i] as object != bits.bits)
      && (forall i, j :: 0 <= i < j < |vec| ==> vec[i] != vec[j])
      && |owners| == |vec|
      && (forall i :: 0 <= i < |vec| ==> owners[i] in tables && tables[owners[i]] == vec[i])
      && (forall t :: t in tables ==> t in owners)
    }

    /** The ids in use. */
    ghost function Ids(): set<nat>
      reads bits.bits
    {
      bits.Contents()
    }

    /** Slot `id` of thread `t`. */
    ghost function Slot(t: Tid, id: nat): Option<S>
      requires Valid() && id < MAX_INSTANCE_ID
      reads this, vec
    {
      if t in tables then tables[t][id] else None
    }

    /** The contents of the tables. */
    ghost function Rows(): map<Tid, seq<Option<S>>>
      requires Valid()
      reads this, vec
    {
      map u | u in tables :: tables[u][..]
    }

    /** The slots of one id over all tables, in registration order. */
    ghost function SlotsOf(id: nat): seq<Option<S>>
      requires Valid() && id < MAX_INSTANCE_ID
      reads this, vec
    {
      seq(|vec|, i requires 0 <= i < |vec| && Valid() reads this, vec => vec[i][id])
    }

    constructor (heap: GlobalAllocator)
      ensures Valid() && Ids() == {} && vec == [] && tables == map[] && owners == []
      ensures fresh(bits) && fresh(bits.bits) && this.heap == heap
    {
      this.heap := heap;
      bits := new LldkBitset(INVALID_ID);
      vec := [];
      tables := map[];
      owners := [];
    }

    /** The least id that is not in use, as Protocol.FreshId has it, or kInvalidInstanceId when there is none
        (LeastFreeUnique and LeastFreeIsLimit say what that means). */
    method NewInstanceId() returns (id: uint32)
      requires Valid()
      modifies bits.bits
      ensures Valid() && id <= INVALID_ID && (id != INVALID_ID ==> id as nat !in old(Ids()))
      ensures id as nat == LeastFree(old(Ids()), MAX_INSTANCE_ID)
      ensures Ids() == if id == INVALID_ID then old(Ids()) else old(Ids()) + {id as nat}
      ensures Rows() == old(Rows())
    {
      id := bits.FindFirstNone();
      LeastFreeIsFree(bits.Contents(), MAX_INSTANCE_ID);
      if id == INVALID_ID {
        return INVALID_ID;
      }
      MarkId(id);
    }

    method MarkId(id: uint32)
      requires Valid() && id < INVALID_ID
      modifies bits.bits
      ensures Valid() && Ids() == old(Ids()) + {id as nat} && Rows() == old(Rows())
    {
      bits.Set(id);
      assert forall u :: u in tables ==> tables[u][..] == old(tables[u][..]);
    }

    method DeleteInstanceId(id: uint32)
      requires Valid() && id < INVALID_ID
      modifies bits.bits
      ensures Valid() && Ids() == old(Ids()) - {id as nat} && Rows() == old(Rows())
    {
      bits.Clear(id);
      assert forall u :: u in tables ==> tables[u][..] == old(tables[u][..]);
    }

    method Allocate(size: nat, p: Ptr) returns (r: Ptr)
      requires Valid() && heap.Valid() && size + 8 < WORD && p !in heap.blocks
      modifies heap
      ensures Valid() && heap.Valid() && r == p
      ensures heap.blocks == if p == NULL then old(heap.blocks) else old(heap.blocks)[p := size]
      ensures heap.tally == if p == NULL then old(heap.tally) else TallyIn(old(heap.tally), size)
      ensures Rows() == old(Rows()) && Ids() == old(Ids())
    {
      r := heap.Allocate(size, p);
    }

    method Free(p: Ptr)
      requires Valid() && heap.Valid() && (p != NULL ==> p in heap.blocks)
      modifies heap
      ensures Valid() && heap.Valid() && heap.blocks == old(heap.blocks) - {p}
      ensures heap.tally == if p == NULL then old(heap.tally) else TallyOut(old(heap.tally), old(heap.blocks)[p])
      ensures Rows() == old(Rows()) && Ids() == old(Ids())
    {
      heap.Free(p);
    }

    /** The table of a thread that has none: `q` is malloc's result and `pushes` says whether push_back succeeds. */
    method AddTable(t: Tid, q: Ptr, pushes: bool) returns (ok: bool)
      requires Valid() && t !in tables && heap.Valid() && q !in heap.blocks
      modifies this, heap
      ensures Valid() && heap.Valid()
      ensures ok <==> q != NULL && pushes
      ensures Rows() == if ok then old(Rows())[t := Blank()] else old(Rows())
      ensures !ok ==> tables == old(tables) && vec == old(vec) && owners == old(owners) && heap.blocks == old(heap.blocks)
      ensures ok ==> t in tables && fresh(tables[t])
      ensures ok ==> vec == old(vec) + [tables[t]] && tables == old(tables)[t := tables[t]] && owners == old(owners) + [t]
      ensures ok ==> heap.blocks == old(heap.blocks)[q := TABLE_BYTES]
      // the block has room for every slot: 2048 pointers of 8 bytes
      ensures ok ==> tables[t].Length == 2048 && heap.blocks[q] == 8 * tables[t].Length
      ensures heap.tally == if q == NULL then old(heap.tally) else if pushes then TallyIn(old(heap.tally), TABLE_BYTES)
        else TallyOut(TallyIn(old(heap.tally), TABLE_BYTES), TABLE_BYTES)
    {
      var r := Allocate(TABLE_BYTES, q);
      if r == NULL {
        return false;
      }
      if !pushes {
        Free(r);
        assert old(heap.blocks)[q := TABLE_BYTES] - {q} == old(heap.blocks);
        return false;
      }
      var table := new Option<S>[MAX_INSTANCE_ID](_ => None);
      assert table[..] == Blank();
      Register(t, table);
      return true;
    }

    method Register(t: Tid, table: array<Option<S>>)
      requires Valid() && t !in tables && table !in vec && table as object != bits.bits && table[..] == Blank()
      modifies this
      ensures Valid() && Rows() == old(Rows())[t := Blank()]
      ensures vec == old(vec) + [table] && tables == old(tables)[t := table] && owners == old(owners) + [t]
    {
      var before := vec;
      vec := vec + [table];
      tables := tables[t := table];
      owners := owners + [t];
      assert vec[|before|] == table && forall i :: 0 <= i < |before| ==> vec[i] == before[i];
    }

    /** `q` and `pushes` as for AddTable, if the thread has no table yet. */
    method SetThreadLocalStorage(t: Tid, id: uint32, storage: Option<S>, q: Ptr, pushes: bool) returns (rc: int)
      requires Valid() && id <= INVALID_ID && heap.Valid() && q !in heap.blocks
      modifies this, vec, heap
      ensures Valid() && heap.Valid()
      ensures rc == if id == INVALID_ID || storage == None || (t !in old(tables) && !(q != NULL && pushes)) then -1 else 0
      ensures rc == -1 ==> tables == old(tables) && vec == old(vec)
      ensures rc == 0 ==> tables.Keys == old(tables).Keys + {t}
      ensures rc == 0 && t in old(tables) ==> tables == old(tables) && vec == old(vec)
      ensures rc == 0 && t !in old(tables) ==> vec == old(vec) + [tables[t]] && tables == old(tables)[t := tables[t]]
      ensures owners == if rc == 0 && t !in old(tables) then old(owners) + [t] else old(owners)
      ensures heap.blocks == if rc == 0 && t !in old(tables) then old(heap.blocks)[q := TABLE_BYTES] else old(heap.blocks)
      ensures rc == 0 && t !in old(tables) ==> heap.blocks[q] == 8 * tables[t].Length && id as nat < tables[t].Length == 2048
      ensures rc == -1 ==> Rows() == old(Rows())
      ensures rc == 0 ==> Rows() == old(Rows())[t := Row(old(Rows()), t)[id := storage]]
      ensures Ids() == old(Ids()) && fresh(set a | a in vec && a !in old(vec))
    {
      if id == INVALID_ID || storage == None {
        return -1;
      }
      if t !in tables {
        var ok := AddTable(t, q, pushes);
        if !ok {
          return -1;
        }
      }
      PutSlot(t, id, storage);
      return 0;
    }

    method PutSlot(t: Tid, id: uint32, storage: Option<S>)
      requires Valid() && id < INVALID_ID && t in tables
      modifies tables[t]
      ensures Valid() && Rows() == old(Rows())[t := old(Rows())[t][id := storage]]
    {
      forall u | u in tables && u != t ensures tables[u] != tables[t] {
        TablesDiffer(t, u);
      }
      tables[t][id] := storage;
      assert tables[t][..] == old(Rows())[t][id := storage];
      assert forall u :: u in tables && u != t ==> tables[u][..] == old(tables[u][..]);
    }

    lemma TablesDiffer(t: Tid, u: Tid)
      requires Valid() && t in tables && u in tables && t != u
      ensures tables[t] != tables[u]
    {
      var i :| 0 <= i < |owners| && owners[i] == t;
      var j :| 0 <= j < |owners| && owners[j] == u;
    }

    /** The thread must have a table. */
    method GetThreadLocalStorage(t: Tid, id: uint32) returns (r: Option<S>)
      requires Valid() && id < INVALID_ID && t in tables
      ensures r == Slot(t, id as nat)
      ensures r == Rows()[t][id]
    {
      r := tables[t][id];
    }

    /** Calls back on the filled slots in registration order and stops at the first nonzero answer. */
    method Foreach(id: uint32, func: Option<S -> int>) returns (rc: int, visited: seq<S>)
      requires Valid() && id < INVALID_ID
      ensures visited <= Filled(SlotsOf(id as nat))
      ensures func == None ==> rc == -1 && visited == []
      ensures func.Some? ==> (rc == 0 <==> AllZero(func.value, Filled(SlotsOf(id as nat))))
      ensures rc == 0 ==> visited == Filled(SlotsOf(id as nat))
      ensures func.Some? && rc != 0 ==>
        rc == -1 && visited != [] && func.value(visited[|visited| - 1]) != 0
        && AllZero(func.value, visited[..|visited| - 1])
    {
      visited := [];
      if func == None {
        return -1, [];
      }
      var i := 0;
      ghost var slots := SlotsOf(id as nat);
      while i < |vec|
        invariant i <= |vec|
        invariant visited == Filled(slots[..i])
        invariant AllZero(func.value, visited)
      {
        assert slots[..i + 1] == slots[..i] + [slots[i]];
        FilledAppend(slots[..i], slots[i]);
        FilledPrefix(slots, i + 1);
        if vec[i][id].Some? {
          visited := visited + [vec[i][id].value];
          if func.value(vec[i][id].value) != 0 {
            assert Filled(slots)[|visited| - 1] == vec[i][id].value;
            assert visited[..|visited| - 1] == Filled(slots[..i]);
            return -1, visited;
          }
        }
        i := i + 1;
      }
      assert slots[..i] == slots;
      return 0, visited;
    }
  }
}
