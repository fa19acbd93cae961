/**
 * The fixed-window engine of internal/engine/fixedsizewindow. A window opens at the first
 * arrival more than `windowSize` nanoseconds after the current window's start (or at the very
 * first arrival, while `lastTime` is still 0) and admits up to `capacity` calls.
 * Timestamps are Unix nanoseconds.
 */
module FixedSizeWindows {
  import opened Wrappers

  const ErrWindowSize := "window size must be greater than 0"

  /** The two fields the engine updates: calls counted in the window and the window's start. */
  datatype Window = Window(currCount: nat, lastTime: int)

  /** What one `AllowAt` call answers and the state it leaves behind. */
  datatype Decision = Decision(allowed: bool, next: Window)

  /** `NewFixedSizeWindow`'s check: the panic message for a non-positive window; `capacity` is
      not checked. */
  function CheckWindowSize(windowSize: int): (panic: Option<string>)
    ensures panic.None? <==> windowSize > 0
    ensures panic.Some? ==> panic.value == ErrWindowSize
  {
    if windowSize <= 0 then Some(ErrWindowSize) else None
  }

  /** The count never exceeds the capacity, except that a reset always counts its opening
      call, so a zero-capacity window still holds 1. */
  ghost predicate Bounded(capacity: nat, w: Window)
  {
    w.currCount <= if capacity == 0 then 1 else capacity
  }

  /** One sequential `AllowAt(now)`, the compare-and-swap always succeeding. */
  function Step(capacity: nat, windowSize: int, w: Window, now: int): (d: Decision)
    requires windowSize > 0
    // clock skew: an arrival before the window start is denied
    ensures now < w.lastTime ==> !d.allowed
    // a denial changes nothing
    ensures !d.allowed ==> d.next == w
    // the window start never moves backwards
    ensures d.next.lastTime >= w.lastTime
    // a first arrival, or one strictly more than windowSize after the start, opens a new window
    ensures (now >= w.lastTime && (w.lastTime == 0 || now - w.lastTime > windowSize))
            ==> d == Decision(true, Window(1, now))
    // an arrival at most windowSize after the start stays in that window and is counted
    ensures (w.lastTime != 0 && w.lastTime <= now <= w.lastTime + windowSize)
            ==> (&& d.next.lastTime == w.lastTime
                 && d.allowed == (w.currCount < capacity)
                 && d.next.currCount == w.currCount + (if d.allowed then 1 else 0))
    ensures Bounded(capacity, w) ==> Bounded(capacity, d.next)
  {
    var elapsed := now - w.lastTime;
    if elapsed < 0 then Decision(false, w)
    else if w.lastTime == 0 || elapsed > windowSize then Decision(true, Window(1, now))
    else if w.currCount < capacity then Decision(true, w.(currCount := w.currCount + 1))
    else Decision(false, w)
  }

  /** How many of the calls at `times` (in order) are admitted, and the final state. */
  datatype Tally = Tally(admitted: nat, last: Window)

  function Run(capacity: nat, windowSize: int, w: Window, times: seq<int>): Tally
    requires windowSize > 0
    decreases |times|
  {
    if times == [] then Tally(0, w)
    else
      var d := Step(capacity, windowSize, w, times[0]);
      var rest := Run(capacity, windowSize, d.next, times[1..]);
      Tally(rest.admitted + (if d.allowed then 1 else 0), rest.last)
  }

  /** Calls that all fall within the current window (no later than `windowSize` after its start)
      are admitted at most up to the room left in it, and the window does not move. */
  lemma {:induction false} WithinWindowBound(capacity: nat, windowSize: int, w: Window, times: seq<int>)
    requires windowSize > 0
    requires w.lastTime != 0 && w.currCount <= capacity
    requires forall i :: 0 <= i < |times| ==> times[i] <= w.lastTime + windowSize
    ensures Run(capacity, windowSize, w, times).admitted <= capacity - w.currCount
    ensures Run(capacity, windowSize, w, times).last.lastTime == w.lastTime
    ensures Run(capacity, windowSize, w, times).last.currCount
              == w.currCount + Run(capacity, windowSize, w, times).admitted
    decreases |times|
  {
    if times != [] {
      var d := Step(capacity, windowSize, w, times[0]);
      WithinWindowBound(capacity, windowSize, d.next, times[1..]);
    }
  }

  /** A fresh engine admits at most `capacity` of any burst of calls that fall within
      `windowSize` of the first one (capacity at least 1, first arrival after time 0). */
  lemma {:induction false} FreshEngineBound(capacity: nat, windowSize: int, times: seq<int>)
    requires windowSize > 0 && capacity >= 1
    requires times != [] && times[0] > 0
    requires forall i :: 0 <= i < |times| ==> times[0] <= times[i] <= times[0] + windowSize
    ensures Run(capacity, windowSize, Window(0, 0), times).admitted <= capacity
  {
    var d := Step(capacity, windowSize, Window(0, 0), times[0]);
    assert d.next == Window(1, times[0]);
    WithinWindowBound(capacity, windowSize, d.next, times[1..]);
  }

  class FixedSizeWindow {
    const capacity: nat
    const windowSize: int
    var currCount: nat
    var lastTime: int

    ghost predicate Valid()
      reads this
    {
      windowSize > 0 && Bounded(capacity, State())
    }

    function State(): Window
      reads this
    {
      Window(currCount, lastTime)
    }

    /** `NewFixedSizeWindow`; its panic on a non-positive window is this precondition. */
    constructor (capacity: nat, windowSize: int)
      requires CheckWindowSize(windowSize).None?
      ensures Valid()
      ensures this.capacity == capacity && this.windowSize == windowSize
      ensures State() == Window(0, 0)
    {
      this.capacity := capacity;
      this.windowSize := windowSize;
      currCount := 0;
      lastTime := 0;
    }

    /** Decides a call arriving at `now` and updates `lastTime` and `currCount` in place. */
    method AllowAt(now: int) returns (allowed: bool)
      requires Valid()
      modifies this
      ensures Valid()
      ensures Decision(allowed, State()) == Step(capacity, windowSize, old(State()), now)
    {
      var last := lastTime;
      var elapsed := now - last;
      if elapsed < 0 {
        return false;
      }
      if last == 0 || elapsed > windowSize {
        lastTime := now;
        currCount := 1;
        return true;
      }
      if currCount < capacity {
        currCount := currCount + 1;
        return currCount <= capacity;
      }
      return false;
    }
  }

  /** Capacity 3, window 1 s: four calls at one instant give three admits and a deny, and a
      call 2 s later opens a new window. */
  method BasicScenario() returns (decisions: seq<bool>)
    ensures decisions == [true, true, true, false, true]
  {
    var limiter := new FixedSizeWindow(3, 1_000_000_000);
    var t := 1_735_689_600_000_000_000; // 2025-01-01T00:00:00Z
    var a := limiter.AllowAt(t);
    var b := limiter.AllowAt(t);
    var c := limiter.AllowAt(t);
    var d := limiter.AllowAt(t);
    var e := limiter.AllowAt(t + 2_000_000_000);
    decisions := [a, b, c, d, e];
  }

  /** Capacity 3, window 10 s: calls at 0, 9, 9, 11, 11, 11 s are all admitted, because the
      call at 11 s is more than 10 s after the window opened at 0 s. */
  method BoundaryScenario() returns (decisions: seq<bool>)
    ensures decisions == [true, true, true, true, true, true]
  {
    var limiter := new FixedSizeWindow(3, 10_000_000_000);
    var t := 1_735_689_600_000_000_000;
    var a := limiter.AllowAt(t);
    var b := limiter.AllowAt(t + 9_000_000_000);
    var c := limiter.AllowAt(t + 9_000_000_000);
    var d := limiter.AllowAt(t + 11_000_000_000);
    var e := limiter.AllowAt(t + 11_000_000_000);
    var f := limiter.AllowAt(t + 11_000_000_000);
    decisions := [a, b, c, d, e, f];
  }

  /** The reset test is strict: a call exactly `windowSize` after the window opened stays in the
      full window and is denied. */
  method ExactBoundaryScenario() returns (decisions: seq<bool>)
    ensures decisions == [true, false]
  {
    var limiter := new FixedSizeWindow(1, 10_000_000_000);
    var t := 1_735_689_600_000_000_000;
    var a := limiter.AllowAt(t);
    var b := limiter.AllowAt(t + 10_000_000_000);
    decisions := [a, b];
  }
}
