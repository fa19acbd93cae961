/**
 * The generic bounded FIFO of pkg/ringbuffer: an array of `capacity + 1` slots read
 * circularly from `start` (inclusive) to `end` (exclusive); one slot always stays free so
 * that a full buffer (`end` just behind `start`) differs from an empty one (`end == start`).
 */
module RingBuffers {
  import opened Wrappers

  /** 2^64: Go's `uint64` arithmetic wraps modulo this. */
  const U64: int := 0x1_0000_0000_0000_0000

  const ErrFull := "ring is full"
  const ErrEmpty := "ring is empty"

  /** `incrementIndex`: the slot after `index` in a ring of `slots` slots. */
  function IncrementIndex(index: nat, slots: nat): (next: nat)
    requires index < slots
    ensures next < slots
    ensures next == index + 1 || (index + 1 == slots && next == 0)
  {
    (index + 1) % slots
  }

  /** The elements held in `slots` from `start` up to (not including) `end`, wrapping at the end. */
  ghost function Circular<T>(slots: seq<T>, start: nat, end: nat): seq<T>
    requires start < |slots| && end < |slots|
  {
    if start <= end then slots[start..end] else slots[start..] + slots[..end]
  }

  /** A ring holds at most one element less than it has slots, and is full exactly when the
      slot after `end` is `start`. */
  lemma CircularLength<T>(slots: seq<T>, start: nat, end: nat)
    requires start < |slots| && end < |slots|
    ensures |Circular(slots, start, end)| < |slots|
    ensures |Circular(slots, start, end)| == |slots| - 1 <==> IncrementIndex(end, |slots|) == start
    ensures Circular(slots, start, end) == [] <==> start == end
  {
  }

  /** Writing `x` into the free slot at `end` and advancing `end` appends `x`. */
  lemma CircularPush<T>(slots: seq<T>, start: nat, end: nat, x: T)
    requires start < |slots| && end < |slots|
    requires IncrementIndex(end, |slots|) != start
    ensures Circular(slots[end := x], start, IncrementIndex(end, |slots|)) == Circular(slots, start, end) + [x]
  {
    var n := |slots|;
    var s' := slots[end := x];
    var e' := IncrementIndex(end, n);
    if start <= end {
      if end + 1 < n {
        assert s'[start..e'] == slots[start..end] + [x];
      } else {
        assert s'[start..] + s'[..e'] == slots[start..end] + [x];
      }
    } else {
      assert s'[start..] == slots[start..];
      assert s'[..e'] == slots[..end] + [x];
      assert s'[start..] + s'[..e'] == slots[start..] + slots[..end] + [x];
    }
  }

  /** The element at `start` is the oldest; overwriting its slot and advancing `start` drops it. */
  lemma CircularPop<T>(slots: seq<T>, start: nat, end: nat, blank: T)
    requires start < |slots| && end < |slots|
    requires start != end
    ensures Circular(slots, start, end) != []
    ensures Circular(slots, start, end)[0] == slots[start]
    ensures Circular(slots[start := blank], IncrementIndex(start, |slots|), end) == Circular(slots, start, end)[1..]
  {
    var n := |slots|;
    var s' := slots[start := blank];
    var b' := IncrementIndex(start, n);
    if start < end {
      assert s'[b'..end] == slots[start..end][1..];
    } else if start + 1 < n {
      assert s'[b'..] + s'[..end] == (slots[start..] + slots[..end])[1..];
    } else {
      assert s'[b'..end] == (slots[start..] + slots[..end])[1..];
    }
  }

  class RingBuffer<T> {
    /** Number of slots: one more than the number of elements the buffer can hold. */
    const capacity: nat
    const buffer: array<T>
    /** Go's zero value of T, written into every slot that is cleared. */
    const zero: T
    var start: nat
    var end: nat

    ghost predicate Valid()
      reads this
    {
      && buffer.Length == capacity
      && 1 <= capacity < U64
      && start < capacity
      && end < capacity
    }

    /** The stored elements, oldest first. */
    ghost function Contents(): seq<T>
      reads this, buffer
      requires Valid()
    {
      Circular(buffer[..], start, end)
    }

    /** `NewRingBuffer`: `capacity + 1` zeroed slots, `start == end == 0`. */
    constructor (capacity: nat, zero: T)
      requires capacity + 1 < U64
      ensures Valid() && fresh(buffer)
      ensures Capacity() == capacity && Size() == 0 && StartIndex() == 0
      ensures Contents() == [] && IsEmpty()
      ensures this.zero == zero
      ensures forall i :: 0 <= i < buffer.Length ==> buffer[i] == zero
    {
      this.capacity := capacity + 1;
      this.zero := zero;
      buffer := new T[capacity + 1](_ => zero);
      start, end := 0, 0;
    }

    function IsFull(): (full: bool)
      reads this, buffer
      requires Valid()
      ensures full <==> |Contents()| == Capacity()
    {
      CircularLength(buffer[..], start, end);
      IncrementIndex(end, capacity) == start
    }

    function IsEmpty(): (empty: bool)
      reads this, buffer
      requires Valid()
      ensures empty <==> Contents() == []
    {
      CircularLength(buffer[..], start, end);
      start == end
    }

    /** The number of elements the buffer can hold; never below the number it holds. */
    function Capacity(): (c: nat)
      reads this, buffer
      requires Valid()
      ensures c + 1 == buffer.Length
      ensures |Contents()| <= c
    {
      CircularLength(buffer[..], start, end);
      capacity - 1
    }

    /** `Size` as written: the `uint64` difference `end - start`. It is the element count only
        while `start <= end`; after wrap-around it is off by 2^64 - (capacity + 1). */
    function Size(): (n: nat)
      reads this, buffer
      requires Valid()
      ensures n < U64
      ensures n == |Contents()| <==> start <= end
      ensures end < start ==> n == |Contents()| + U64 - capacity
    {
      (end - start) % U64
    }

    /** The element count that `Size` evidently means: correct also after wrap-around. */
    function Count(): (n: nat)
      reads this, buffer
      requires Valid()
      ensures n == |Contents()|
    {
      if start <= end then end - start else end + capacity - start
    }

    /** The slot of the oldest element. */
    function StartIndex(): (i: nat)
      reads this, buffer
      requires Valid()
      ensures i < buffer.Length
      ensures Contents() != [] ==> Contents()[0] == buffer[i]
    {
      if start != end then CircularPop(buffer[..], start, end, zero); start else start
    }

    /** The oldest element without removing it, or an error when the buffer is empty. */
    function PeekFront(): (r: Result<T>)
      reads this, buffer
      requires Valid()
      ensures r.Failure? <==> Contents() == []
      ensures r.Failure? ==> r.error == ErrEmpty
      ensures r.Success? ==> r.value == Contents()[0]
    {
      if IsEmpty() then Failure(ErrEmpty)
      else
        CircularPop(buffer[..], start, end, zero);
        Success(buffer[start])
    }

    /** Appends `value`, or fails without any change when the buffer is full. */
    method PushBack(value: T) returns (r: Outcome)
      requires Valid()
      modifies this, buffer
      ensures Valid()
      ensures r == if old(IsFull()) then Fail(ErrFull) else Pass
      ensures Contents() == if r.Pass? then old(Contents()) + [value] else old(Contents())
      ensures r.Fail? ==> unchanged(this, buffer)
      ensures r.Pass? ==> start == old(start) && end == IncrementIndex(old(end), capacity)
      ensures r.Pass? ==> buffer[..] == old(buffer[..])[old(end) := value]
    {
      if IsFull() {
        return Fail(ErrFull);
      }
      CircularPush(buffer[..], start, end, value);
      var pos := end;
      buffer[end] := value;
      end := IncrementIndex(pos, capacity);
      return Pass;
    }

    /** Removes and returns the oldest element, zeroing its slot, or fails when empty. */
    method PopFront() returns (r: Result<T>)
      requires Valid()
      modifies this, buffer
      ensures Valid()
      ensures r.Failure? <==> old(Contents()) == []
      ensures r.Failure? ==> r.error == ErrEmpty && unchanged(this, buffer)
      ensures r.Success? ==> r.value == old(Contents())[0] && Contents() == old(Contents())[1..]
      ensures r.Success? ==> end == old(end) && start == IncrementIndex(old(start), capacity)
      ensures r.Success? ==> buffer[..] == old(buffer[..])[old(start) := zero]
    {
      if IsEmpty() {
        return Failure(ErrEmpty);
      }
      CircularPop(buffer[..], start, end, zero);
      var value := buffer[start];
      buffer[start] := zero;
      start := IncrementIndex(start, capacity);
      return Success(value);
    }

    /** Zeroes every slot and empties the buffer. */
    method Clear()
      requires Valid()
      modifies this, buffer
      ensures Valid()
      ensures start == 0 && end == 0
      ensures Contents() == [] && Size() == 0 && StartIndex() == 0
      ensures forall i :: 0 <= i < buffer.Length ==> buffer[i] == zero
    {
      for i := 0 to capacity
        invariant forall j :: 0 <= j < i ==> buffer[j] == zero
      {
        buffer[i] := zero;
      }
      start := 0;
      end := 0;
    }
  }

  /** From an empty buffer of capacity `n`, exactly `n` pushes succeed; the buffer is then full
      and the next push fails. */
  method FillFromEmpty<T>(n: nat, zero: T, x: T) returns (successes: nat, full: bool, next: Outcome)
    requires n + 1 < U64
    ensures successes == n && full
    ensures next == Fail(ErrFull)
  {
    var rb := new RingBuffer(n, zero);
    successes := 0;
    var i := 0;
    while i < n
      invariant rb.Valid() && rb.Capacity() == n
      invariant i <= n && successes == i && |rb.Contents()| == i
    {
      var r := rb.PushBack(x);
      if r.Pass? {
        successes := successes + 1;
      }
      i := i + 1;
    }
    full := rb.IsFull();
    next := rb.PushBack(x);
  }

  /** Three pushes into a buffer of capacity 3 succeed, leave it full with size 3, and a fourth fails. */
  method EnqueueScenario() returns (pushed: seq<Outcome>, full: bool, size: nat)
    ensures pushed == [Pass, Pass, Pass, Fail(ErrFull)]
    ensures full && size == 3
  {
    var rb := new RingBuffer<int>(3, 0);
    var a := rb.PushBack(1);
    var b := rb.PushBack(2);
    var c := rb.PushBack(3);
    full := rb.IsFull();
    size := rb.Size();
    var d := rb.PushBack(4);
    pushed := [a, b, c, d];
  }

  /** FIFO across wrap-around in a buffer of capacity 2: push 5, 10; pop; push 15; pop, peek, pop. */
  method WrapAroundScenario() returns (popped: seq<Result<int>>, peeked: Result<int>, empty: bool)
    ensures popped == [Success(5), Success(10), Success(15)]
    ensures peeked == Success(15)
    ensures empty
  {
    var rb := new RingBuffer<int>(2, 0);
    var _ := rb.PushBack(5);
    var _ := rb.PushBack(10);
    var a := rb.PopFront();
    var _ := rb.PushBack(15);
    var b := rb.PopFront();
    peeked := rb.PeekFront();
    var c := rb.PopFront();
    empty := rb.IsEmpty();
    popped := [a, b, c];
  }

  /** After wrap-around `Size` is not the element count: with capacity 2, after push, push, pop,
      push the buffer holds 2 elements, which `Count` reports, but `Size` reports 2^64 - 1. */
  method SizeAfterWrapAround() returns (size: nat, count: nat)
    ensures count == 2
    ensures size == U64 - 1
  {
    var rb := new RingBuffer<int>(2, 0);
    var _ := rb.PushBack(1);
    var _ := rb.PushBack(2);
    var _ := rb.PopFront();
    var _ := rb.PushBack(3);
    size := rb.Size();
    count := rb.Count();
  }
}
