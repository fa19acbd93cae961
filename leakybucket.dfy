/**
 * The leaky-bucket engine of internal/engine/leakybucket/leakybucket.go: a ring buffer of
 * `capacity` queued arrivals. A call is admitted exactly when the queue has room, whatever its
 * time; a background ticker drains the oldest queued arrival every `drainRate`. Here one tick of
 * that drain is a method of its own, and the ticker, the mutex and the stop channel are left to
 * the caller. Arrival times are opaque integers.
 */
module LeakyBuckets {
  import opened Wrappers
  import opened RingBuffers

  const ErrDrainRate := "drain rate must be greater than 0"
  const ErrCapacity := "capacity must be greater than 0"

  /** `NewLeakyBucket`'s checks, in the order it makes them: the panic message, if any. */
  function CheckParams(capacity: nat, drainRate: int): (panic: Option<string>)
    ensures panic.None? <==> drainRate > 0 && capacity > 0
    ensures drainRate <= 0 ==> panic == Some(ErrDrainRate)
    ensures (drainRate > 0 && capacity == 0) ==> panic == Some(ErrCapacity)
  {
    if drainRate <= 0 then Some(ErrDrainRate)
    else if capacity == 0 then Some(ErrCapacity)
    else None
  }

  /** What one `AllowAt` call answers and the queue it leaves behind. */
  datatype Decision = Decision(allowed: bool, queue: seq<int>)

  /** One `AllowAt(arriveAt)` on a queue of at most `capacity` arrivals. */
  function Offer(capacity: nat, queue: seq<int>, arriveAt: int): (d: Decision)
    requires |queue| <= capacity
    ensures |d.queue| <= capacity
    // admitted exactly when the queue had room
    ensures d.allowed <==> |queue| < capacity
    // an admitted arrival joins the back of the queue; a denied one changes nothing
    ensures d.queue == if d.allowed then queue + [arriveAt] else queue
  {
    if |queue| == capacity then Decision(false, queue)
    else Decision(true, queue + [arriveAt])
  }

  /** The decision never depends on the arrival time, only on how full the queue is. */
  lemma OfferIgnoresTime(capacity: nat, queue: seq<int>, early: int, late: int)
    requires |queue| <= capacity
    ensures Offer(capacity, queue, early).allowed == Offer(capacity, queue, late).allowed
    ensures |Offer(capacity, queue, early).queue| == |Offer(capacity, queue, late).queue|
  {
  }

  /** What one drain tick processed, if anything, and the queue it leaves behind. */
  datatype Drained = Drained(processed: Option<int>, queue: seq<int>)

  /** One tick of the drain: the oldest queued arrival is processed and leaves the queue. */
  function Drain(queue: seq<int>): (r: Drained)
    ensures queue == [] ==> r == Drained(None, [])
    ensures queue != [] ==> r.processed.Some? && [r.processed.value] + r.queue == queue
  {
    if queue == [] then Drained(None, []) else Drained(Some(queue[0]), queue[1..])
  }

  /** Something that reaches the bucket: a call, or a tick of the drain. */
  datatype Event = Arrive(at: int) | Tick

  function Ticks(events: seq<Event>): nat
  {
    if events == [] then 0 else (if events[0].Tick? then 1 else 0) + Ticks(events[1..])
  }

  /** The number of admitted calls so far and the queue. */
  datatype Tally = Tally(admitted: nat, queue: seq<int>)

  /** The events, in order, from `queue`, adding to `admitted` admissions so far. */
  function Run(capacity: nat, queue: seq<int>, admitted: nat, events: seq<Event>): (t: Tally)
    requires |queue| <= capacity
    decreases |events|
  {
    if events == [] then Tally(admitted, queue)
    else if events[0].Tick? then Run(capacity, Drain(queue).queue, admitted, events[1..])
    else
      var d := Offer(capacity, queue, events[0].at);
      Run(capacity, d.queue, if d.allowed then admitted + 1 else admitted, events[1..])
  }

  /** The queue never outgrows `capacity`, and every admission is paid for by room in the queue
      at the start or by a tick that drained an entry: over any run, the calls admitted number
      at most the free room at the start plus the ticks. */
  lemma {:induction false} RunBound(capacity: nat, queue: seq<int>, admitted: nat, events: seq<Event>)
    requires |queue| <= capacity
    ensures var t := Run(capacity, queue, admitted, events);
            && |t.queue| <= capacity
            && t.admitted + |queue| <= admitted + |t.queue| + Ticks(events)
    decreases |events|
  {
    if events != [] {
      if events[0].Tick? {
        RunBound(capacity, Drain(queue).queue, admitted, events[1..]);
      } else {
        var d := Offer(capacity, queue, events[0].at);
        RunBound(capacity, d.queue, if d.allowed then admitted + 1 else admitted, events[1..]);
      }
    }
  }

  /** A new bucket admits at most `capacity` calls plus one per tick, however the calls and
      ticks interleave. */
  lemma FreshBucketBound(capacity: nat, events: seq<Event>)
    ensures Run(capacity, [], 0, events).admitted <= capacity + Ticks(events)
  {
    RunBound(capacity, [], 0, events);
  }

  class LeakyBucket {
    const capacity: nat
    const drainRate: int
    const queue: RingBuffer<int>

    ghost predicate Valid()
      reads this, queue, queue.buffer
    {
      CheckParams(capacity, drainRate).None? && queue.Valid() && queue.Capacity() == capacity
    }

    /** The queued arrival times, oldest first. */
    ghost function Queue(): seq<int>
      reads this, queue, queue.buffer
      requires Valid()
    {
      queue.Contents()
    }

    /** `NewLeakyBucket` without starting the drain: its two panics are the first precondition,
        and the second keeps `capacity + 1` within `uint64`. */
    constructor (capacity: nat, drainRate: int)
      requires CheckParams(capacity, drainRate).None?
      requires capacity + 1 < U64
      ensures Valid() && fresh(queue) && fresh(queue.buffer)
      ensures this.capacity == capacity && this.drainRate == drainRate
      ensures Queue() == []
    {
      this.capacity := capacity;
      this.drainRate := drainRate;
      queue := new RingBuffer(capacity, 0);
    }

    /** Queues `arriveAt` and admits the call iff the queue is not full. */
    method AllowAt(arriveAt: int) returns (allowed: bool)
      requires Valid()
      modifies queue, queue.buffer
      ensures Valid()
      ensures Decision(allowed, Queue()) == Offer(capacity, old(Queue()), arriveAt)
    {
      if queue.IsFull() {
        return false;
      }
      var pushed := queue.PushBack(arriveAt);
      return pushed.Pass?;
    }

    /** One tick of the drain: processes and removes the oldest queued arrival, if any. */
    method LeakTick() returns (processed: Option<int>)
      requires Valid()
      modifies queue, queue.buffer
      ensures Valid()
      ensures Drained(processed, Queue()) == Drain(old(Queue()))
    {
      processed := None;
      if !queue.IsEmpty() {
        var request := queue.PopFront();
        processed := if request.Success? then Some(request.value) else None;
      }
    }
  }

  /** 2025-01-01T00:00:00Z in Unix milliseconds. */
  const T0 := 1_735_689_600_000

  /** Capacity 3: three calls are admitted and a fourth is denied; one tick later the call 2 s
      after them is admitted. */
  method BasicScenario() returns (decisions: seq<bool>, processed: Option<int>)
    ensures decisions == [true, true, true, false, true]
    ensures processed == Some(T0)
  {
    var limiter := new LeakyBucket(3, 1_000_000_000);
    var a := limiter.AllowAt(T0);
    assert limiter.Queue() == [T0];
    var b := limiter.AllowAt(T0);
    assert limiter.Queue() == [T0, T0];
    var c := limiter.AllowAt(T0);
    assert limiter.Queue() == [T0, T0, T0];
    var d := limiter.AllowAt(T0);
    assert limiter.Queue() == [T0, T0, T0];
    processed := limiter.LeakTick();
    assert limiter.Queue() == [T0, T0];
    var e := limiter.AllowAt(T0 + 2000);
    decisions := [a, b, c, d, e];
  }
}
