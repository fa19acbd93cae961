/**
 * The sliding-window counter engine of internal/engine/slidingwindow/slidingwindowcounter.go.
 * Time is cut into calendar windows of `windowSize` milliseconds, numbered `now / windowSize`
 * from the Unix epoch. The engine keeps the number of calls admitted in the current window and
 * in the one before it, and admits a call while the previous window's count, weighted by the
 * part of it still inside the sliding window, plus the current count stays below `capacity`.
 * Timestamps are Unix milliseconds; Go's `float64` counts and weights are exact reals here.
 */
module SlidingWindowCounters {
  import opened Wrappers

  const ErrWindowSize := "window size must be greater than 0"

  /** `NewSlidingWindowCounter`'s check: the panic message for a non-positive window. */
  function CheckWindowSize(windowSize: int): (panic: Option<string>)
    ensures panic.None? <==> windowSize > 0
    ensures panic.Some? ==> panic.value == ErrWindowSize
  {
    if windowSize <= 0 then Some(ErrWindowSize) else None
  }

  /** Go's `/` on `int64`: the quotient truncated toward zero. */
  function GoDiv(a: int, b: int): (q: int)
    requires b > 0
    ensures a >= 0 ==> 0 <= a - q * b < b
    ensures a < 0 ==> -b < a - q * b <= 0
  {
    if a >= 0 then a / b else -((-a) / b)
  }

  /** Go's `%` on `int64`: the remainder takes the sign of the dividend. */
  function GoMod(a: int, b: int): (m: int)
    requires b > 0
    ensures a == GoDiv(a, b) * b + m
    ensures a >= 0 ==> 0 <= m < b
    ensures a < 0 ==> -b < m <= 0
  {
    a - GoDiv(a, b) * b
  }

  /** A time `w * windowSize + offset` with `0 <= offset < windowSize` lies in window `w`, at
      `offset` into it. */
  lemma WindowOf(now: int, windowSize: int, w: nat, offset: int)
    requires windowSize > 0 && 0 <= offset < windowSize
    requires now == w * windowSize + offset
    ensures GoDiv(now, windowSize) == w && GoMod(now, windowSize) == offset
  {
    var q := GoDiv(now, windowSize);
    var k := w - q;
    assert k * windowSize == (now - q * windowSize) - offset;
    if k >= 1 {
      MultipleAtLeast(k, windowSize);
      assert false;
    } else if k <= -1 {
      MultipleAtLeast(-k, windowSize);
      assert false;
    }
  }

  lemma MultipleAtLeast(k: int, b: int)
    requires k >= 1 && b > 0
    ensures k * b >= b
  {
  }

  /** The engine's snapshot: counts admitted in the current and the previous window, and the
      current window's number. */
  datatype State = State(currCount: nat, prevCount: nat, currWindow: int)

  /** What one `AllowAt` call answers and the snapshot it leaves behind. */
  datatype Decision = Decision(allowed: bool, next: State)

  /** The snapshot `NewSlidingWindowCounter` stores. */
  const Initial := State(0, 0, 0)

  /** The snapshot as seen from window `w` (not before the current one): unchanged in the same
      window; in the next window the current count becomes the previous one; after a gap of one
      or more empty windows both counts are 0. */
  function Rollover(s: State, w: int): (r: State)
    requires w >= s.currWindow
    ensures r.currWindow == w
    ensures w == s.currWindow ==> r == s
    ensures w == s.currWindow + 1 ==> r.currCount == 0 && r.prevCount == s.currCount
    ensures w > s.currWindow + 1 ==> r.currCount == 0 && r.prevCount == 0
  {
    if w > s.currWindow then
      var moved := State(0, s.currCount, w);
      if w > s.currWindow + 1 then moved.(prevCount := 0) else moved
    else s
  }

  /** The share of the previous window still covered by the sliding window ending at `now`. It
      is positive, and at most 1 for times after the epoch; before it Go's signed remainder
      pushes it above 1. */
  function Weight(now: int, windowSize: int): (weight: real)
    requires windowSize > 0
    ensures 0.0 < weight < 2.0
    ensures now >= 0 ==> weight <= 1.0
    ensures GoMod(now, windowSize) == 0 <==> weight == 1.0
  {
    1.0 - GoMod(now, windowSize) as real / windowSize as real
  }

  /** The estimated number of calls in the sliding window: the previous window's count scaled by
      the weight, plus the current window's count. */
  function Estimate(s: State, now: int, windowSize: int): (e: real)
    requires windowSize > 0
    ensures e >= s.currCount as real
    ensures s.prevCount == 0 ==> e == s.currCount as real
  {
    var weight := Weight(now, windowSize);
    assert s.prevCount as real * weight >= 0.0;
    s.prevCount as real * weight + s.currCount as real
  }

  /** A count the engine can reach: it was below `capacity` before its last increment. */
  ghost predicate Fits(capacity: real, count: nat)
  {
    count == 0 || (count - 1) as real < capacity
  }

  ghost predicate Bounded(capacity: real, s: State)
  {
    Fits(capacity, s.currCount) && Fits(capacity, s.prevCount)
  }

  /** With a whole-number capacity `c`, a count that fits is at most `c`. */
  lemma FitsWholeCapacity(c: nat, count: nat)
    requires Fits(c as real, count)
    ensures count <= c
  {
  }

  /** One sequential `AllowAt(now)`, the compare-and-swap always succeeding. */
  function Step(capacity: real, windowSize: int, s: State, now: int): (d: Decision)
    requires windowSize > 0
    // an arrival in a window before the current one is denied
    ensures GoDiv(now, windowSize) < s.currWindow ==> !d.allowed
    // a denial publishes nothing, not even a rollover
    ensures !d.allowed ==> d.next == s
    // the window number never moves backwards
    ensures d.next.currWindow >= s.currWindow
    // an admission publishes the snapshot rolled over to the arrival's window, with the call
    // counted there
    ensures d.allowed ==> && GoDiv(now, windowSize) >= s.currWindow
                          && var rolled := Rollover(s, GoDiv(now, windowSize));
                             d.next == rolled.(currCount := rolled.currCount + 1)
    ensures Bounded(capacity, s) ==> Bounded(capacity, d.next)
  {
    var w := GoDiv(now, windowSize);
    if w < s.currWindow then Decision(false, s)
    else
      var rolled := Rollover(s, w);
      if Estimate(rolled, now, windowSize) < capacity then Decision(true, rolled.(currCount := rolled.currCount + 1))
      else Decision(false, s)
  }

  /** A call is admitted exactly when its window is not behind the current one and the weighted
      estimate of the calls in the sliding window is below capacity; since the estimate is at
      least the current window's count, an admitted call leaves that count at most one above a
      value below capacity. */
  lemma StepDecides(capacity: real, windowSize: int, s: State, now: int)
    requires windowSize > 0
    ensures var d := Step(capacity, windowSize, s, now);
            var w := GoDiv(now, windowSize);
            && (d.allowed <==> w >= s.currWindow && Estimate(Rollover(s, w), now, windowSize) < capacity)
            && (d.allowed ==> (d.next.currCount - 1) as real < capacity)
  {
  }

  /** The record of admitted calls (the window number of each, oldest first) and the final
      snapshot after a sequence of calls. */
  datatype Tally = Tally(admitted: seq<int>, last: State)

  /** The calls at `times`, in order, from snapshot `s`, extending the record `admitted`. */
  function Run(capacity: real, windowSize: int, s: State, admitted: seq<int>, times: seq<int>): Tally
    requires windowSize > 0
    decreases |times|
  {
    if times == [] then Tally(admitted, s)
    else
      var d := Step(capacity, windowSize, s, times[0]);
      Run(capacity, windowSize, d.next, if d.allowed then admitted + [GoDiv(times[0], windowSize)] else admitted, times[1..])
  }

  /** How many entries of `windows` are `w`. */
  function Occurrences(windows: seq<int>, w: int): nat
    decreases |windows|
  {
    if windows == [] then 0
    else (if windows[0] == w then 1 else 0) + Occurrences(windows[1..], w)
  }

  lemma {:induction false} OccurrencesAppend(windows: seq<int>, x: int, w: int)
    ensures Occurrences(windows + [x], w) == Occurrences(windows, w) + (if x == w then 1 else 0)
    decreases |windows|
  {
    if windows != [] {
      assert (windows + [x])[1..] == windows[1..] + [x];
      OccurrencesAppend(windows[1..], x, w);
    }
  }

  lemma {:induction false} OccurrencesAbove(windows: seq<int>, bound: int, w: int)
    requires forall i :: 0 <= i < |windows| ==> windows[i] <= bound
    requires w > bound
    ensures Occurrences(windows, w) == 0
    decreases |windows|
  {
    if windows != [] {
      OccurrencesAbove(windows[1..], bound, w);
    }
  }

  /** The snapshot agrees with the record of admitted calls (by window number): its two counts
      are the admissions in the current and the previous window, and no call was admitted in a
      later window. */
  ghost predicate Tracks(s: State, windows: seq<int>)
  {
    && s.currCount == Occurrences(windows, s.currWindow)
    && s.prevCount == Occurrences(windows, s.currWindow - 1)
    && (forall i :: 0 <= i < |windows| ==> windows[i] <= s.currWindow)
  }

  /** Each call keeps the snapshot in agreement with the record of admissions. */
  lemma StepTracks(capacity: real, windowSize: int, s: State, windows: seq<int>, now: int)
    requires windowSize > 0
    requires Tracks(s, windows)
    ensures var d := Step(capacity, windowSize, s, now);
            Tracks(d.next, if d.allowed then windows + [GoDiv(now, windowSize)] else windows)
  {
    var d := Step(capacity, windowSize, s, now);
    if d.allowed {
      var w := GoDiv(now, windowSize);
      OccurrencesAppend(windows, w, w);
      OccurrencesAppend(windows, w, w - 1);
      if w == s.currWindow + 1 {
        OccurrencesAbove(windows, s.currWindow, w);
      } else if w > s.currWindow + 1 {
        OccurrencesAbove(windows, s.currWindow, w);
        OccurrencesAbove(windows, s.currWindow, w - 1);
      }
    }
  }

  lemma {:induction false} RunTracks(capacity: real, windowSize: int, s: State, windows: seq<int>, times: seq<int>)
    requires windowSize > 0
    requires Tracks(s, windows)
    ensures var t := Run(capacity, windowSize, s, windows, times);
            Tracks(t.last, t.admitted)
    decreases |times|
  {
    if times != [] {
      var d := Step(capacity, windowSize, s, times[0]);
      StepTracks(capacity, windowSize, s, windows, times[0]);
      RunTracks(capacity, windowSize, d.next, if d.allowed then windows + [GoDiv(times[0], windowSize)] else windows, times[1..]);
    }
  }

  /** Every window of the record holds at most `c` admissions. */
  ghost predicate AtMostPerWindow(windows: seq<int>, c: nat)
  {
    forall w :: Occurrences(windows, w) <= c
  }

  /** Recording one more admission in window `x` keeps every window within `c` when `x` does. */
  lemma AppendAtMost(windows: seq<int>, x: int, c: nat)
    requires AtMostPerWindow(windows, c)
    requires Occurrences(windows + [x], x) <= c
    ensures AtMostPerWindow(windows + [x], c)
  {
    forall w
      ensures Occurrences(windows + [x], w) <= c
    {
      OccurrencesAppend(windows, x, w);
    }
  }

  /** With a whole-number capacity `c`, counts stay within `c` and no window of the record ever
      holds more than `c` admissions, along any sequence of calls. */
  lemma {:induction false} RunAtMostPerWindow(c: nat, windowSize: int, s: State, windows: seq<int>, times: seq<int>)
    requires windowSize > 0
    requires Tracks(s, windows) && Bounded(c as real, s) && AtMostPerWindow(windows, c)
    ensures var t := Run(c as real, windowSize, s, windows, times);
            Bounded(c as real, t.last) && AtMostPerWindow(t.admitted, c)
    decreases |times|
  {
    if times != [] {
      var d := Step(c as real, windowSize, s, times[0]);
      var w := GoDiv(times[0], windowSize);
      StepTracks(c as real, windowSize, s, windows, times[0]);
      if d.allowed {
        FitsWholeCapacity(c, d.next.currCount);
        AppendAtMost(windows, w, c);
      }
      RunAtMostPerWindow(c, windowSize, d.next, if d.allowed then windows + [w] else windows, times[1..]);
    }
  }

  /** From a new engine with a whole-number capacity `c`, the two counts are exactly the
      admissions in the current and the previous window, and no window ever admits more than
      `c` calls. */
  lemma FreshEngineCounts(c: nat, windowSize: int, times: seq<int>)
    requires windowSize > 0
    ensures var t := Run(c as real, windowSize, Initial, [], times);
            && t.last.currCount == Occurrences(t.admitted, t.last.currWindow)
            && t.last.prevCount == Occurrences(t.admitted, t.last.currWindow - 1)
            && forall w :: Occurrences(t.admitted, w) <= c
  {
    RunTracks(c as real, windowSize, Initial, [], times);
    RunAtMostPerWindow(c, windowSize, Initial, [], times);
  }

  class SlidingWindowCounter {
    const capacity: real
    const windowSize: int
    var state: State

    ghost predicate Valid()
      reads this
    {
      windowSize > 0 && Bounded(capacity, state)
    }

    /** `NewSlidingWindowCounter`; its panic on a non-positive window is this precondition. */
    constructor (capacity: real, windowSize: int)
      requires CheckWindowSize(windowSize).None?
      ensures Valid()
      ensures this.capacity == capacity && this.windowSize == windowSize
      ensures state == Initial
    {
      this.capacity := capacity;
      this.windowSize := windowSize;
      state := Initial;
    }

    /** Rolls a copy of the snapshot over to the arrival's window, estimates the calls in the
        sliding window, and publishes the copy with one more call iff the estimate is below
        capacity. */
    method AllowAt(now: int) returns (allowed: bool)
      requires Valid()
      modifies this
      ensures Valid()
      ensures Decision(allowed, state) == Step(capacity, windowSize, old(state), now)
    {
      var lastState := state;
      var newState := lastState;
      var currWindow := GoDiv(now, windowSize);
      if currWindow < lastState.currWindow {
        return false;
      }
      if currWindow > lastState.currWindow {
        newState := newState.(currCount := 0, prevCount := lastState.currCount, currWindow := currWindow);
        if currWindow > lastState.currWindow + 1 {
          newState := newState.(prevCount := 0);
        }
      }
      assert newState == Rollover(lastState, currWindow);
      var prevWindowWeight := 1.0 - GoMod(now, windowSize) as real / windowSize as real;
      assert prevWindowWeight == Weight(now, windowSize);
      var estimatedCurrCount := newState.prevCount as real * prevWindowWeight + newState.currCount as real;
      assert estimatedCurrCount == Estimate(newState, now, windowSize);
      if estimatedCurrCount < capacity {
        newState := newState.(currCount := newState.currCount + 1);
        state := newState;
        return true;
      }
      return false;
    }
  }

  /** 2025-01-01T00:00:00Z in Unix milliseconds, and its window number for 10 s windows. */
  const T0 := 1_735_689_600_000
  const W0 := 173_568_960

  /** Capacity 3, window 10 s, calls at 0, 0, 0, 0, 10, 11, 12, 17, 19 and 30 s past T0: the
      estimates are 0, 1, 2, 3, 3, 2.7, 3.4, 1.9, 2.3 and 0. */
  method BasicScenario() returns (decisions: seq<bool>)
    ensures decisions == [true, true, true, false, false, true, false, true, true, true]
  {
    var limiter, burst := BasicBurst();
    var next := BasicNextWindow(limiter);
    var later := BasicLater(limiter);
    decisions := burst + next + later;
  }

  /** The first four calls of `BasicScenario`, all at T0: three admitted, the fourth denied. */
  method BasicBurst() returns (limiter: SlidingWindowCounter, decisions: seq<bool>)
    ensures fresh(limiter) && limiter.Valid()
    ensures limiter.capacity == 3.0 && limiter.windowSize == 10_000
    ensures limiter.state == State(3, 0, W0)
    ensures decisions == [true, true, true, false]
  {
    limiter := new SlidingWindowCounter(3.0, 10_000);
    WindowOf(T0, 10_000, W0, 0);
    var a := limiter.AllowAt(T0);
    assert limiter.state == State(1, 0, W0);
    var b := limiter.AllowAt(T0);
    assert limiter.state == State(2, 0, W0);
    var c := limiter.AllowAt(T0);
    assert limiter.state == State(3, 0, W0);
    var d := limiter.AllowAt(T0);
    decisions := [a, b, c, d];
  }

  /** Calls at 10, 11 and 12 s: the first sees the full previous window at weight 1 and is
      denied without rolling over; the second sees 0.9 * 3 and is admitted; the third sees
      0.8 * 3 + 1 and is denied. */
  method BasicNextWindow(limiter: SlidingWindowCounter) returns (decisions: seq<bool>)
    requires limiter.Valid() && limiter.capacity == 3.0 && limiter.windowSize == 10_000
    requires limiter.state == State(3, 0, W0)
    modifies limiter
    ensures limiter.Valid() && limiter.state == State(1, 3, W0 + 1)
    ensures decisions == [false, true, false]
  {
    WindowOf(T0 + 10_000, 10_000, W0 + 1, 0);
    var e := limiter.AllowAt(T0 + 10_000);
    assert limiter.state == State(3, 0, W0);
    WindowOf(T0 + 11_000, 10_000, W0 + 1, 1000);
    var f := limiter.AllowAt(T0 + 11_000);
    assert limiter.state == State(1, 3, W0 + 1);
    WindowOf(T0 + 12_000, 10_000, W0 + 1, 2000);
    var g := limiter.AllowAt(T0 + 12_000);
    decisions := [e, f, g];
  }

  /** Calls at 17, 19 and 30 s: 0.3 * 3 + 1 and 0.1 * 3 + 2 are below 3, and the call at 30 s
      is two windows on, where both counts start from 0. */
  method BasicLater(limiter: SlidingWindowCounter) returns (decisions: seq<bool>)
    requires limiter.Valid() && limiter.capacity == 3.0 && limiter.windowSize == 10_000
    requires limiter.state == State(1, 3, W0 + 1)
    modifies limiter
    ensures decisions == [true, true, true]
  {
    WindowOf(T0 + 17_000, 10_000, W0 + 1, 7000);
    var h := limiter.AllowAt(T0 + 17_000);
    assert limiter.state == State(2, 3, W0 + 1);
    WindowOf(T0 + 19_000, 10_000, W0 + 1, 9000);
    var i := limiter.AllowAt(T0 + 19_000);
    assert limiter.state == State(3, 3, W0 + 1);
    WindowOf(T0 + 30_000, 10_000, W0 + 3, 0);
    var j := limiter.AllowAt(T0 + 30_000);
    decisions := [h, i, j];
  }

  /** Capacity 3, window 10 s, calls at 0, 9, 9, 11, 11 and 11 s: the call at 11 s sees
      0.9 * 3 = 2.7 and is admitted, the two after it see 3.7 and are denied. */
  method BoundaryScenario() returns (decisions: seq<bool>)
    ensures decisions == [true, true, true, true, false, false]
  {
    var limiter := new SlidingWindowCounter(3.0, 10_000);
    WindowOf(T0, 10_000, W0, 0);
    var a := limiter.AllowAt(T0);
    assert limiter.state == State(1, 0, W0);
    WindowOf(T0 + 9000, 10_000, W0, 9000);
    var b := limiter.AllowAt(T0 + 9000);
    assert limiter.state == State(2, 0, W0);
    var c := limiter.AllowAt(T0 + 9000);
    assert limiter.state == State(3, 0, W0);
    WindowOf(T0 + 11_000, 10_000, W0 + 1, 1000);
    var d := limiter.AllowAt(T0 + 11_000);
    assert limiter.state == State(1, 3, W0 + 1);
    var e := limiter.AllowAt(T0 + 11_000);
    var f := limiter.AllowAt(T0 + 11_000);
    decisions := [a, b, c, d, e, f];
  }

  /** A call one day earlier than the last admitted one falls in an earlier window and is
      denied. */
  method ClockSkewScenario() returns (decisions: seq<bool>)
    ensures decisions == [true, false]
  {
    var limiter := new SlidingWindowCounter(5.0, 1000);
    var t := 1_735_776_000_000; // 2025-01-02T00:00:00Z
    WindowOf(t, 1000, 1_735_776_000, 0);
    WindowOf(t - 86_400_000, 1000, 1_735_689_600, 0);
    var a := limiter.AllowAt(t);
    var b := limiter.AllowAt(t - 86_400_000);
    decisions := [a, b];
  }
}
