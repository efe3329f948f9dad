/** The fixed-size `RingBuffer<T>` of MetalDoodle/RingBuffer.swift: an array of
    optional slots with a signed write index. Swift's `Int` is 64 bits wide and
    traps on overflow, an out-of-range subscript and a remainder by zero; the
    preconditions below are exactly the conditions under which none of those
    traps fire. */
module RingBuffers {

  datatype Option<T> = None | Some(value: T)

  const IntMin: int := -0x8000_0000_0000_0000
  const IntMax: int := 0x7FFF_FFFF_FFFF_FFFF

  predicate InIntRange(n: int) {
    IntMin <= n <= IntMax
  }

  /** Swift's `a / n` for a positive divisor: the quotient truncated toward
      zero (Dafny's own `/` is Euclidean). */
  function SwiftQuot(a: int, n: int): (q: int)
    requires n > 0
  {
    if a >= 0 then a / n else -((-a) / n)
  }

  /** Swift's `a % n` for a positive divisor: the remainder of the division
      truncated toward zero, which takes the sign of the dividend (Dafny's own
      `%` is Euclidean and never negative). */
  function SwiftRem(a: int, n: int): (r: int)
    requires n > 0
    ensures a == SwiftQuot(a, n) * n + r
    ensures -n < r < n
    ensures a >= 0 ==> r >= 0
    ensures a <= 0 ==> r <= 0
  {
    if a >= 0 then a % n else -((-a) % n)
  }

  /** Division with remainder is unique: a quotient and a remainder in [0, n)
      that rebuild x are Dafny's `x / n` and `x % n`. */
  lemma DivModUnique(x: int, n: int, q: int, r: int)
    requires n > 0 && x == q * n + r && 0 <= r < n
    ensures x / n == q && x % n == r
  {
    var q', r' := x / n, x % n;
    assert (q - q') * n == r' - r;
    if q > q' {
      MulAtLeast(q - q', n);
    } else if q < q' {
      MulAtLeast(q' - q, n);
    }
  }

  lemma MulAtLeast(k: int, n: int)
    requires k >= 1 && n > 0
    ensures k * n >= n
  {
  }

  /** Adding the divisor does not change the remainder. */
  lemma ModShift(x: int, n: int)
    requires n > 0
    ensures (x + n) % n == x % n
  {
    DivModUnique(x + n, n, x / n + 1, x % n);
  }

  /** On a non-negative dividend Swift's remainder agrees with Dafny's. */
  lemma SwiftRemNonNegative(a: int, n: int)
    requires n > 0 && a >= 0
    ensures SwiftRem(a, n) == a % n
  {
  }

  /** On a negative dividend that is not a multiple of the divisor, Swift's
      remainder is negative and so cannot be used as an array index. */
  lemma SwiftRemNegative(a: int, n: int)
    requires n > 0 && a < 0 && a % n != 0
    ensures SwiftRem(a, n) < 0
  {
    if (-a) % n == 0 {
      DivModUnique(a, n, -((-a) / n), 0);
    }
  }

  /** The slot `enqueue` writes: `(index + 1) % count`. */
  function EnqueueSlot(index: int, count: int): (r: int)
    requires count > 0
    ensures index + 1 >= 0 ==> 0 <= r < count && r == (index + 1) % count
  {
    SwiftRem(index + 1, count)
  }

  /** The slot `dequeue` reads and clears: `(index + count - 1) % count`. */
  function DequeueSlot(index: int, count: int): (r: int)
    requires count > 0
    ensures index + count - 1 >= 0 ==> 0 <= r < count && r == (index - 1) % count
  {
    ModShift(index - 1, count);
    SwiftRem(index + count - 1, count)
  }

  /** The abstract state of a buffer: its slots (as many as `count`) and its
      signed index. */
  datatype RingState<T> = RingState(slots: seq<Option<T>>, index: int)

  /** A buffer of `count` empty slots with index 0, as `init(count:)` and
      `clear()` leave it. */
  function Fresh<T>(count: nat): (s: RingState<T>)
    ensures |s.slots| == count && s.index == 0
    ensures forall i :: 0 <= i < count ==> s.slots[i] == None
  {
    RingState(seq(count, _ => None), 0)
  }

  /** `enqueue` runs without trapping: a non-zero count, no overflow of
      `index + 1`, and a non-negative slot. */
  predicate CanEnqueue<T>(s: RingState<T>)
    ensures CanEnqueue(s) ==> |s.slots| > 0 && 0 <= EnqueueSlot(s.index, |s.slots|) < |s.slots| && InIntRange(s.index + 1)
  {
    |s.slots| > 0 && InIntRange(s.index) && s.index + 1 <= IntMax && EnqueueSlot(s.index, |s.slots|) >= 0
  }

  /** `dequeue` runs without trapping: a non-zero count, no overflow of
      `index + count` or `index - 1`, and a non-negative slot. */
  predicate CanDequeue<T>(s: RingState<T>)
    ensures CanDequeue(s) ==> |s.slots| > 0 && 0 <= DequeueSlot(s.index, |s.slots|) < |s.slots| && InIntRange(s.index - 1)
                              && InIntRange(s.index + |s.slots|)
  {
    |s.slots| > 0 && InIntRange(s.index) && s.index + |s.slots| <= IntMax && s.index - 1 >= IntMin
    && DequeueSlot(s.index, |s.slots|) >= 0
  }

  /** The state after `enqueue(v)`: slot `(index + 1) % count` holds `v`, every
      other slot is unchanged and the index has grown by one. */
  function Enqueued<T>(s: RingState<T>, v: T): (r: RingState<T>)
    requires CanEnqueue(s)
    ensures |r.slots| == |s.slots| && r.index == s.index + 1
    ensures r.slots[EnqueueSlot(s.index, |s.slots|)] == Some(v)
    ensures forall i :: 0 <= i < |s.slots| && i != EnqueueSlot(s.index, |s.slots|) ==> r.slots[i] == s.slots[i]
  {
    RingState(s.slots[EnqueueSlot(s.index, |s.slots|) := Some(v)], s.index + 1)
  }

  /** The state after `dequeue()`, with the value it returns: the old content of
      slot `(index + count - 1) % count`, which is emptied; every other slot is
      unchanged and the index has shrunk by one. */
  function Dequeued<T>(s: RingState<T>): (r: (RingState<T>, Option<T>))
    requires CanDequeue(s)
    ensures |r.0.slots| == |s.slots| && r.0.index == s.index - 1
    ensures r.1 == s.slots[DequeueSlot(s.index, |s.slots|)]
    ensures r.0.slots[DequeueSlot(s.index, |s.slots|)] == None
    ensures forall i :: 0 <= i < |s.slots| && i != DequeueSlot(s.index, |s.slots|) ==> r.0.slots[i] == s.slots[i]
  {
    var slot := DequeueSlot(s.index, |s.slots|);
    (RingState(s.slots[slot := None], s.index - 1), s.slots[slot])
  }

  /** The state after `clear()`: a fresh buffer of the same size. */
  function Cleared<T>(s: RingState<T>): (r: RingState<T>)
    ensures r == Fresh(|s.slots|)
  {
    RingState(seq(|s.slots|, _ => None), 0)
  }

  /** A `dequeue` right after an `enqueue` reads the slot at the old index, not
      the slot just written: with one slot it hands the value straight back,
      but with more than one the enqueued value stays where it was put and what
      comes back is the older content of the slot before it. */
  lemma DequeueAfterEnqueue<T>(s: RingState<T>, v: T)
    requires CanEnqueue(s)
    requires CanDequeue(Enqueued(s, v))
    ensures var n := |s.slots|;
            var (t, x) := Dequeued(Enqueued(s, v));
            (n == 1 ==> x == Some(v) && t.slots[0] == None)
            && (n > 1 ==> s.index % n != (s.index + 1) % n
                          && x == s.slots[s.index % n]
                          && t.slots[(s.index + 1) % n] == Some(v))
  {
    var n := |s.slots|;
    var e := Enqueued(s, v);
    if n == 1 {
      assert EnqueueSlot(s.index, n) == 0;
      assert DequeueSlot(e.index, n) == 0;
    } else if s.index + 1 < 0 {
      NegativeIndexBlocksDequeue(s, v);
      assert false;
    } else {
      var k := s.index % n;
      assert DequeueSlot(e.index, n) == k;
      ConsecutiveSlotsDiffer(s.index, n);
      assert e.slots[k] == s.slots[k];
      assert Dequeued(e).0.slots[(s.index + 1) % n] == e.slots[(s.index + 1) % n];
    }
  }

  /** With more than one slot and a negative `index + 1`, an `enqueue` that does
      not trap leaves an index from which `dequeue` would read a negative slot
      and so trap. */
  lemma NegativeIndexBlocksDequeue<T>(s: RingState<T>, v: T)
    requires CanEnqueue(s) && |s.slots| > 1 && s.index + 1 < 0
    ensures !CanDequeue(Enqueued(s, v))
  {
    var n := |s.slots|;
    // The enqueue slot is both non-negative and, for a negative dividend, at
    // most zero: index + 1 is a multiple of n.
    var q := SwiftQuot(s.index + 1, n);
    assert SwiftRem(s.index + 1, n) == 0;
    assert s.index + 1 == q * n;
    // The dequeue then reads (index + n) % n, a negative number n - 1 above a
    // multiple of n.
    var a := Enqueued(s, v).index + n - 1;
    assert a == q * n + (n - 1);
    if q >= 0 {
      MulNonNegative(q, n);
      assert false;
    }
    assert a < 0;
    DivModUnique(a, n, q, n - 1);
    SwiftRemNegative(a, n);
  }

  lemma MulNonNegative(k: int, n: int)
    requires k >= 0 && n > 0
    ensures k * n >= 0
  {
  }

  /** Two consecutive integers fall into different slots modulo n > 1. */
  lemma ConsecutiveSlotsDiffer(i: int, n: int)
    requires n > 1
    ensures i % n != (i + 1) % n
  {
    var q, r := i / n, i % n;
    if r + 1 < n {
      DivModUnique(i + 1, n, q, r + 1);
    } else {
      DivModUnique(i + 1, n, q + 1, 0);
    }
  }

  /** `dequeue` on a buffer of empty slots returns nil, keeps every slot empty
      and still decrements the index, which can become negative. */
  lemma DequeueEmpty<T>(s: RingState<T>)
    requires CanDequeue(s)
    requires forall i :: 0 <= i < |s.slots| ==> s.slots[i] == None
    ensures var (t, x) := Dequeued(s);
            x == None && t.index == s.index - 1 && t.slots == s.slots
  {
  }

  /** Two `dequeue`s on a fresh buffer of two or more slots drive the index to
      -2; the following `enqueue` would write slot `(-1) % count`, which Swift
      evaluates to -1, so it traps. */
  lemma SecondDequeueBlocksEnqueue<T>(count: nat)
    requires 2 <= count <= IntMax
    ensures CanDequeue(Fresh<T>(count))
    ensures CanDequeue(Dequeued(Fresh<T>(count)).0)
    ensures !CanEnqueue(Dequeued(Dequeued(Fresh<T>(count)).0).0)
  {
    var s0 := Fresh<T>(count);
    assert DequeueSlot(0, count) == count - 1;
    var s1 := Dequeued(s0).0;
    assert s1.index == -1;
    assert DequeueSlot(-1, count) == count - 2;
    var s2 := Dequeued(s1).0;
    assert s2.index == -2;
    SwiftRemNegative(-1, count);
    assert EnqueueSlot(-2, count) < 0;
  }

  /** One call on a buffer: `enqueue(_:)`, `dequeue()` or `clear()`. */
  datatype Op<T> = EnqueueOp(value: T) | DequeueOp | ClearOp

  /** The state after one call, or None when the call would trap. */
  function Step<T>(s: RingState<T>, op: Op<T>): (r: Option<RingState<T>>) {
    match op
    case EnqueueOp(v) => if CanEnqueue(s) then Some(Enqueued(s, v)) else None
    case DequeueOp => if CanDequeue(s) then Some(Dequeued(s).0) else None
    case ClearOp => Some(Cleared(s))
  }

  /** The state after a sequence of calls, or None when one of them would trap. */
  function Run<T>(s: RingState<T>, ops: seq<Op<T>>): (r: Option<RingState<T>>)
    decreases |ops|
  {
    if |ops| == 0 then Some(s)
    else
      match Step(s, ops[0])
      case None => None
      case Some(t) => Run(t, ops[1..])
  }

  /** The number of enqueues minus the number of dequeues in `ops`. */
  function Net<T>(ops: seq<Op<T>>): (r: int)
    decreases |ops|
  {
    if |ops| == 0 then 0
    else (match ops[0] case EnqueueOp(_) => 1 case DequeueOp => -1 case ClearOp => 0) + Net(ops[1..])
  }

  /** However many calls are made, the array keeps its `count` slots. */
  lemma {:induction false} RunKeepsCount<T>(s: RingState<T>, ops: seq<Op<T>>)
    ensures Run(s, ops).Some? ==> |Run(s, ops).value.slots| == |s.slots|
    decreases |ops|
  {
    if |ops| > 0 {
      match Step(s, ops[0])
      case None =>
      case Some(t) => RunKeepsCount(t, ops[1..]);
    }
  }

  /** Without a `clear()`, the index moves by the number of enqueues minus the
      number of dequeues, whatever the buffer holds. */
  lemma {:induction false} RunMovesIndex<T>(s: RingState<T>, ops: seq<Op<T>>)
    requires forall i :: 0 <= i < |ops| ==> !ops[i].ClearOp?
    ensures Run(s, ops).Some? ==> Run(s, ops).value.index == s.index + Net(ops)
    decreases |ops|
  {
    if |ops| > 0 {
      match Step(s, ops[0])
      case None =>
      case Some(t) => RunMovesIndex(t, ops[1..]);
    }
  }

  /** `RingBuffer<T>`: the fixed-length array of optional slots, the signed
      `index` and the immutable `count`. */
  class RingBuffer<T> {
    var storage: array<Option<T>>  // Swift's `array`
    var index: int
    const count: int

    /** The array always has `count` slots and the index is a valid `Int`. */
    ghost predicate Valid()
      reads this
    {
      storage.Length == count && InIntRange(index)
    }

    /** The abstract value of the buffer. */
    ghost function State(): RingState<T>
      reads this, storage
    {
      RingState(storage[..], index)
    }

    /** `init(count:)`: `count` empty slots, index 0. A negative count would
        trap in the array initializer. */
    constructor (count: int)
      requires 0 <= count <= IntMax
      ensures Valid() && fresh(storage)
      ensures this.count == count && State() == Fresh(count)
    {
      this.count := count;
      storage := new Option<T>[count](_ => None);
      index := 0;
      new;
      assert storage[..] == Fresh<T>(count).slots;
    }

    /** `enqueue(_:)`: writes `value` at `(index + 1) % count`, then increments
        the index. */
    method Enqueue(value: T)
      requires Valid() && CanEnqueue(State())
      modifies this, storage
      ensures Valid() && storage == old(storage)
      ensures State() == Enqueued(old(State()), value)
    {
      var targetIndex := SwiftRem(index + 1, count);
      storage[targetIndex] := Some(value);
      index := index + 1;
    }

    /** `dequeue()`: reads and clears slot `(index + count - 1) % count`, then
        decrements the index and returns what the slot held. */
    method Dequeue() returns (value: Option<T>)
      requires Valid() && CanDequeue(State())
      modifies this, storage
      ensures Valid() && storage == old(storage)
      ensures (State(), value) == Dequeued(old(State()))
    {
      var targetIndex := SwiftRem(index + count - 1, count);
      value := storage[targetIndex];
      storage[targetIndex] := None;
      index := index - 1;
    }

    /** `clear()`: index back to 0 and a new array of `count` empty slots. */
    method Clear()
      requires Valid()
      modifies this
      ensures Valid() && fresh(storage)
      ensures State() == Cleared(old(State()))
    {
      index := 0;
      storage := new Option<T>[count](_ => None);
      assert storage[..] == Fresh<T>(count).slots;
    }
  }
}
