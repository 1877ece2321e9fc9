// Whole traces of LldkBitset against a set of positions.
module BitsetRuns {
  import opened Words
  import opened Bitset

  datatype Op =
    | Set(i: uint32) | Clear(i: uint32) | SetAll | ClearAll
    | Test(i: uint32) | TestAll | TestAny | TestNone | Count | FindFirstSet | FindFirstNone

  datatype Answer = Done | Flag(b: bool) | Number(n: nat)

  /** The position an operation is given lies below kSize. */
  predicate Legal(kSize: uint32, op: Op) {
    op.Set? || op.Clear? || op.Test? ==> op.i < kSize
  }

  predicate LegalRun(kSize: uint32, ops: seq<Op>) {
    forall k :: 0 <= k < |ops| ==> Legal(kSize, ops[k])
  }

  /** The set after the operation, of positions below `size`. */
  ghost function After(s: set<nat>, size: nat, op: Op): set<nat> {
    match op
    case Set(i) => s + {i as nat}
    case Clear(i) => s - {i as nat}
    case SetAll => Below(size)
    case ClearAll => {}
    case _ => s
  }

  ghost predicate Right(s: set<nat>, size: nat, op: Op, a: Answer) {
    match op
    case Test(i) => a == Flag(i as nat in s)
    case TestAll => a == Flag(|s| == size)
    case TestAny => a == Flag(|s| > 0)
    case TestNone => a == Flag(|s| == 0)
    case Count => a == Number(|s|)
    case FindFirstSet => a.Number? && IsFirst(s, size, a.n)
    case FindFirstNone => a == Number(LeastFree(s, size))
    case _ => a == Done
  }

  /** Each answer is right for the set that the operations before it leave. */
  ghost predicate AllRight(s: set<nat>, size: nat, ops: seq<Op>, answers: seq<Answer>)
    decreases |ops|
  {
    if ops == [] then answers == []
    else answers != [] && Right(s, size, ops[0], answers[0]) && AllRight(After(s, size, ops[0]), size, ops[1..], answers[1..])
  }

  method Change(b: LldkBitset, op: Op)
    requires b.Valid() && Legal(b.kSize, op) && (op.Set? || op.Clear? || op.SetAll? || op.ClearAll?)
    modifies b.bits
    ensures b.Contents() == After(old(b.Contents()), b.kSize as nat, op)
  {
    match op {
      case Set(i) => b.Set(i);
      case Clear(i) => b.Clear(i);
      case SetAll => b.SetAll();
      case ClearAll => b.ClearAll();
    }
  }

  method Ask(b: LldkBitset, op: Op) returns (a: Answer)
    requires b.Valid() && Legal(b.kSize, op) && !(op.Set? || op.Clear? || op.SetAll? || op.ClearAll?)
    ensures Right(b.Contents(), b.kSize as nat, op, a)
  {
    match op {
      case Test(i) => { var x := b.Test(i); a := Flag(x); }
      case TestAll => { var x := b.TestAll(); a := Flag(x); }
      case TestAny => { var x := b.TestAny(); a := Flag(x); }
      case TestNone => { var x := b.TestNone(); a := Flag(x); }
      case Count => { var n := b.Count(); a := Number(n as nat); }
      case FindFirstSet => { var n := b.FindFirstSet(); a := Number(n as nat); }
      case FindFirstNone => { var n := b.FindFirstNone(); a := Number(n as nat); }
    }
  }

  method ReplayFrom(b: LldkBitset, ops: seq<Op>) returns (answers: seq<Answer>)
    requires b.Valid() && LegalRun(b.kSize, ops)
    modifies b.bits
    ensures AllRight(old(b.Contents()), b.kSize as nat, ops, answers)
    decreases |ops|
  {
    if ops == [] {
      return [];
    }
    assert Legal(b.kSize, ops[0]);
    var a := Done;
    if ops[0].Set? || ops[0].Clear? || ops[0].SetAll? || ops[0].ClearAll? {
      Change(b, ops[0]);
    } else {
      a := Ask(b, ops[0]);
    }
    var rest := ReplayFrom(b, ops[1..]);
    answers := [a] + rest;
    assert answers[1..] == rest;
  }

  /** Any trace on a new bitset gives the answers a set of positions would give. */
  method Replay(kSize: uint32, ops: seq<Op>) returns (answers: seq<Answer>)
    requires LegalSize(kSize) && LegalRun(kSize, ops)
    ensures AllRight({}, kSize as nat, ops, answers)
  {
    var b := new LldkBitset(kSize);
    answers := ReplayFrom(b, ops);
  }
}
