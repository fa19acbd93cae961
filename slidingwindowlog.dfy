/**
 * The sliding-window log engine of internal/engine/slidingwindow/slidingwindowlog.go: a ring
 * buffer of admitted arrival times (Unix milliseconds). Each call first pops every entry at the
 * front that is more than `windowSize` old, stopping at the first that is not, then admits and
 * records the arrival if the buffer has room.
 */
module SlidingWindowLogs {
  import opened Wrappers
  import opened RingBuffers

  const ErrWindowSize := "window size must be greater than 0"

  /** `NewSlidingWindowLogs`'s check: the panic message for a non-positive window. */
  function CheckWindowSize(windowSize: int): (panic: Option<string>)
    ensures panic.None? <==> windowSize > 0
    ensures panic.Some? ==> panic.value == ErrWindowSize
  {
    if windowSize <= 0 then Some(ErrWindowSize) else None
  }

  /** An entry is stale at `arriveAt` when it is strictly more than `windowSize` older. */
  predicate Stale(entry: int, arriveAt: int, windowSize: int)
  {
    arriveAt - entry > windowSize
  }

  /** The eviction loop: drop stale entries from the front, stopping at the first fresh one. */
  function Evict(log: seq<int>, arriveAt: int, windowSize: int): (kept: seq<int>)
    ensures |kept| <= |log|
    decreases |log|
  {
    if log != [] && Stale(log[0], arriveAt, windowSize) then Evict(log[1..], arriveAt, windowSize)
    else log
  }

  /** Eviction keeps a suffix of the log, every entry it drops was stale, and it stops at a
      fresh entry. */
  lemma {:induction false} EvictKeepsSuffix(log: seq<int>, arriveAt: int, windowSize: int)
    ensures var kept := Evict(log, arriveAt, windowSize);
            && kept == log[|log| - |kept|..]
            && (forall i :: 0 <= i < |log| - |kept| ==> Stale(log[i], arriveAt, windowSize))
            && (kept != [] ==> !Stale(kept[0], arriveAt, windowSize))
    decreases |log|
  {
    if log != [] && Stale(log[0], arriveAt, windowSize) {
      EvictKeepsSuffix(log[1..], arriveAt, windowSize);
    }
  }

  /** The entries of `log` that lie within the window ending at `arriveAt`: the exact sliding
      window the log stands for. */
  function InWindow(log: seq<int>, arriveAt: int, windowSize: int): seq<int>
    decreases |log|
  {
    if log == [] then []
    else (if Stale(log[0], arriveAt, windowSize) then [] else [log[0]]) + InWindow(log[1..], arriveAt, windowSize)
  }

  ghost predicate Sorted(log: seq<int>)
  {
    forall i, j :: 0 <= i < j < |log| ==> log[i] <= log[j]
  }

  lemma {:induction false} InWindowOfFresh(log: seq<int>, arriveAt: int, windowSize: int)
    requires forall i :: 0 <= i < |log| ==> !Stale(log[i], arriveAt, windowSize)
    ensures InWindow(log, arriveAt, windowSize) == log
    decreases |log|
  {
    if log != [] {
      InWindowOfFresh(log[1..], arriveAt, windowSize);
    }
  }

  /** For a log kept in arrival order, evicting from the front alone leaves exactly the entries
      within the window: the stale ones are all at the front. */
  lemma {:induction false} EvictIsWindow(log: seq<int>, arriveAt: int, windowSize: int)
    requires Sorted(log)
    ensures Evict(log, arriveAt, windowSize) == InWindow(log, arriveAt, windowSize)
    decreases |log|
  {
    if log != [] {
      if Stale(log[0], arriveAt, windowSize) {
        EvictIsWindow(log[1..], arriveAt, windowSize);
      } else {
        InWindowOfFresh(log, arriveAt, windowSize);
      }
    }
  }

  /** Arrivals in time order keep the log in time order. */
  lemma AdmitKeepsSorted(log: seq<int>, arriveAt: int, windowSize: int)
    requires Sorted(log)
    requires forall i :: 0 <= i < |log| ==> log[i] <= arriveAt
    ensures Sorted(Evict(log, arriveAt, windowSize) + [arriveAt])
  {
    EvictKeepsSuffix(log, arriveAt, windowSize);
    var kept := Evict(log, arriveAt, windowSize);
    var k := |log| - |kept|;
    assert forall i :: 0 <= i < |kept| ==> kept[i] == log[k + i];
    var grown := kept + [arriveAt];
    assert forall i :: 0 <= i < |grown| ==> grown[i] <= arriveAt;
    assert forall i, j :: 0 <= i < j < |kept| ==> grown[i] <= grown[j];
  }

  /** A log within its capacity that is still full after eviction lost nothing to eviction:
      the call is denied and the log is left as it was. */
  lemma FullAfterEvictionMeansNoPop(log: seq<int>, arriveAt: int, windowSize: int, capacity: nat)
    requires |log| <= capacity
    requires |Evict(log, arriveAt, windowSize)| >= capacity
    ensures Evict(log, arriveAt, windowSize) == log
  {
    EvictKeepsSuffix(log, arriveAt, windowSize);
  }

  /** What one `AllowAt` call answers and the log it leaves behind. */
  datatype Decision = Decision(allowed: bool, log: seq<int>)

  /** One call at `arriveAt` on a log of a `capacity`-entry buffer: evict, then admit and record
      the arrival iff there is room. */
  function Admit(capacity: nat, windowSize: int, log: seq<int>, arriveAt: int): (d: Decision)
    requires |log| <= capacity
    ensures |d.log| <= capacity
    // a denial leaves the log exactly as it was
    ensures !d.allowed ==> d.log == log
    // an admission records the arrival as the newest entry, after what eviction kept
    ensures d.allowed ==> d.log == Evict(log, arriveAt, windowSize) + [arriveAt]
    // a denial means the log was full and nothing in it was stale at its front
    ensures !d.allowed <==> |log| == capacity && (log == [] || !Stale(log[0], arriveAt, windowSize))
  {
    var kept := Evict(log, arriveAt, windowSize);
    EvictKeepsSuffix(log, arriveAt, windowSize);
    if |kept| < capacity then Decision(true, kept + [arriveAt])
    else
      FullAfterEvictionMeansNoPop(log, arriveAt, windowSize, capacity);
      Decision(false, kept)
  }

  /** The number of admitted calls so far and the log. */
  datatype Tally = Tally(admitted: nat, log: seq<int>)

  /** The calls at `times`, in order, from `log`, adding to `admitted` admissions so far. */
  function Run(capacity: nat, windowSize: int, log: seq<int>, admitted: nat, times: seq<int>): (t: Tally)
    requires |log| <= capacity
    decreases |times|
  {
    if times == [] then Tally(admitted, log)
    else
      var d := Admit(capacity, windowSize, log, times[0]);
      Run(capacity, windowSize, d.log, if d.allowed then admitted + 1 else admitted, times[1..])
  }

  /** Running a sequence of calls in two parts is running it whole. */
  lemma {:induction false} RunSplits(capacity: nat, windowSize: int, log: seq<int>, admitted: nat,
                                     xs: seq<int>, ys: seq<int>)
    requires |log| <= capacity
    ensures var mid := Run(capacity, windowSize, log, admitted, xs);
            && |mid.log| <= capacity
            && Run(capacity, windowSize, log, admitted, xs + ys)
               == Run(capacity, windowSize, mid.log, mid.admitted, ys)
    decreases |xs|
  {
    if xs == [] {
      assert xs + ys == ys;
    } else {
      assert (xs + ys)[0] == xs[0] && (xs + ys)[1..] == xs[1..] + ys;
      var d := Admit(capacity, windowSize, log, xs[0]);
      RunSplits(capacity, windowSize, d.log, if d.allowed then admitted + 1 else admitted, xs[1..], ys);
    }
  }

  /** The number of entries of `log` recorded at `t0` or later. */
  function Recent(log: seq<int>, t0: int): (n: nat)
    ensures n <= |log|
    decreases |log|
  {
    if log == [] then 0 else (if t0 <= log[0] then 1 else 0) + Recent(log[1..], t0)
  }

  /** A call at most `windowSize` after `t0` evicts no entry recorded at `t0` or later. */
  lemma {:induction false} EvictKeepsRecent(log: seq<int>, arriveAt: int, windowSize: int, t0: int)
    requires arriveAt <= t0 + windowSize
    ensures Recent(Evict(log, arriveAt, windowSize), t0) == Recent(log, t0)
    decreases |log|
  {
    if log != [] && Stale(log[0], arriveAt, windowSize) {
      EvictKeepsRecent(log[1..], arriveAt, windowSize, t0);
    }
  }

  /** Calls that all arrive within the window from `t0` to `t0 + windowSize` evict nothing
      recorded in that window, and each admission records one more such entry: the calls
      admitted, together with the entries the log already held from that window, number at
      most `capacity`. */
  lemma {:induction false} WithinWindowBound(capacity: nat, windowSize: int, log: seq<int>, admitted: nat,
                                             times: seq<int>, t0: int)
    requires |log| <= capacity
    requires forall i :: 0 <= i < |times| ==> t0 <= times[i] <= t0 + windowSize
    ensures var t := Run(capacity, windowSize, log, admitted, times);
            && |t.log| <= capacity
            && t.admitted + Recent(log, t0) == admitted + Recent(t.log, t0)
            && t.admitted + Recent(log, t0) <= admitted + capacity
    decreases |times|
  {
    if times != [] {
      var d := Admit(capacity, windowSize, log, times[0]);
      EvictKeepsRecent(log, times[0], windowSize, t0);
      if d.allowed {
        var kept := Evict(log, times[0], windowSize);
        RecentAppend(kept, times[0], t0);
      }
      WithinWindowBound(capacity, windowSize, d.log, if d.allowed then admitted + 1 else admitted, times[1..], t0);
    }
  }

  lemma {:induction false} RecentAppend(log: seq<int>, x: int, t0: int)
    requires t0 <= x
    ensures Recent(log + [x], t0) == Recent(log, t0) + 1
    decreases |log|
  {
    if log == [] {
      assert log + [x] == [x];
    } else {
      assert (log + [x])[1..] == log[1..] + [x];
      RecentAppend(log[1..], x, t0);
    }
  }

  /** The sliding-window guarantee: whatever came before, any consecutive calls `times[k..m]`
      that all arrive within one window of length `windowSize` admit at most `capacity` of
      themselves. */
  lemma SlidingBound(capacity: nat, windowSize: int, times: seq<int>, k: nat, m: nat, t0: int)
    requires k <= m <= |times|
    requires forall i :: k <= i < m ==> t0 <= times[i] <= t0 + windowSize
    ensures Run(capacity, windowSize, [], 0, times[..m]).admitted
            <= Run(capacity, windowSize, [], 0, times[..k]).admitted + capacity
  {
    assert times[..m] == times[..k] + times[k..m];
    RunSplits(capacity, windowSize, [], 0, times[..k], times[k..m]);
    var mid := Run(capacity, windowSize, [], 0, times[..k]);
    WithinWindowBound(capacity, windowSize, mid.log, mid.admitted, times[k..m], t0);
  }

  /** A new log admits at most `capacity` of any calls that all arrive within `windowSize` of
      the first. */
  lemma FreshLogBound(capacity: nat, windowSize: int, times: seq<int>)
    requires times != []
    requires forall i :: 0 <= i < |times| ==> times[0] <= times[i] <= times[0] + windowSize
    ensures Run(capacity, windowSize, [], 0, times).admitted <= capacity
  {
    WithinWindowBound(capacity, windowSize, [], 0, times, times[0]);
  }

  class SlidingWindowLog {
    const capacity: nat
    const windowSize: int
    const requestLog: RingBuffer<int>

    ghost predicate Valid()
      reads this, requestLog, requestLog.buffer
    {
      windowSize > 0 && requestLog.Valid() && requestLog.Capacity() == capacity
    }

    /** The recorded arrival times, oldest first. */
    ghost function Log(): seq<int>
      reads this, requestLog, requestLog.buffer
      requires Valid()
    {
      requestLog.Contents()
    }

    /** `NewSlidingWindowLogs`; its panic on a non-positive window is the first precondition,
        and the second keeps `capacity + 1` within `uint64`. */
    constructor (capacity: nat, windowSize: int)
      requires CheckWindowSize(windowSize).None?
      requires capacity + 1 < U64
      ensures Valid() && fresh(requestLog) && fresh(requestLog.buffer)
      ensures this.capacity == capacity && this.windowSize == windowSize
      ensures Log() == []
    {
      this.capacity := capacity;
      this.windowSize := windowSize;
      requestLog := new RingBuffer(capacity, 0);
    }

    /** Evicts stale entries, then admits and records `arriveAt` iff the log has room. */
    method AllowAt(arriveAt: int) returns (allowed: bool)
      requires Valid()
      modifies requestLog, requestLog.buffer
      ensures Valid()
      ensures Decision(allowed, Log()) == Admit(capacity, windowSize, old(Log()), arriveAt)
    {
      while !requestLog.IsEmpty()
        invariant Valid()
        invariant Evict(Log(), arriveAt, windowSize) == Evict(old(Log()), arriveAt, windowSize)
        decreases |Log()|
      {
        var lastLog := requestLog.PeekFront();
        if arriveAt - lastLog.value > windowSize {
          var _ := requestLog.PopFront();
        } else {
          break;
        }
      }
      if !requestLog.IsFull() {
        var _ := requestLog.PushBack(arriveAt);
        return true;
      }
      FullAfterEvictionMeansNoPop(old(Log()), arriveAt, windowSize, capacity);
      return false;
    }
  }

  /** 2025-01-01T00:00:00Z in Unix milliseconds. */
  const T0 := 1_735_689_600_000

  /** Capacity 3, window 1 s: four calls at one instant give three admits and a deny; a call
      2 s later finds every entry stale and is admitted. */
  method BasicScenario() returns (decisions: seq<bool>)
    ensures decisions == [true, true, true, false, true]
  {
    var limiter, burst := BasicBurst();
    assert [T0, T0, T0][1..] == [T0, T0] && [T0, T0][1..] == [T0];
    assert Evict([T0], T0 + 2000, 1000) == [];
    assert Evict([T0, T0], T0 + 2000, 1000) == [];
    assert Evict([T0, T0, T0], T0 + 2000, 1000) == [];
    var e := limiter.AllowAt(T0 + 2000);
    decisions := burst + [e];
  }

  /** The four calls at one instant. */
  method BasicBurst() returns (limiter: SlidingWindowLog, decisions: seq<bool>)
    ensures fresh(limiter) && fresh(limiter.requestLog) && fresh(limiter.requestLog.buffer)
    ensures limiter.Valid() && limiter.capacity == 3 && limiter.windowSize == 1000
    ensures limiter.Log() == [T0, T0, T0]
    ensures decisions == [true, true, true, false]
  {
    limiter := new SlidingWindowLog(3, 1000);
    var a := limiter.AllowAt(T0);
    assert limiter.Log() == [T0];
    assert Evict([T0], T0, 1000) == [T0];
    var b := limiter.AllowAt(T0);
    assert limiter.Log() == [T0, T0];
    assert Evict([T0, T0], T0, 1000) == [T0, T0];
    var c := limiter.AllowAt(T0);
    assert limiter.Log() == [T0, T0, T0];
    var d := limiter.AllowAt(T0);
    decisions := [a, b, c, d];
  }

  /** Capacity 3, window 10 s: calls at 0, 9, 9, 11, 11, 11 s; the call at 11 s evicts the one
      at 0 s and is admitted, the two after it find the log full. */
  method BoundaryScenario() returns (decisions: seq<bool>)
    ensures decisions == [true, true, true, true, false, false]
  {
    var limiter, early := BoundaryFill();
    var late := BoundaryLater(limiter);
    decisions := early + late;
  }

  /** The calls at 0, 9 and 9 s fill the log. */
  method BoundaryFill() returns (limiter: SlidingWindowLog, decisions: seq<bool>)
    ensures fresh(limiter) && fresh(limiter.requestLog) && fresh(limiter.requestLog.buffer)
    ensures limiter.Valid() && limiter.capacity == 3 && limiter.windowSize == 10_000
    ensures limiter.Log() == [T0, T0 + 9000, T0 + 9000]
    ensures decisions == [true, true, true]
  {
    limiter := new SlidingWindowLog(3, 10_000);
    var a := limiter.AllowAt(T0);
    assert limiter.Log() == [T0];
    assert Evict([T0], T0 + 9000, 10_000) == [T0];
    var b := limiter.AllowAt(T0 + 9000);
    assert limiter.Log() == [T0, T0 + 9000];
    assert Evict([T0, T0 + 9000], T0 + 9000, 10_000) == [T0, T0 + 9000];
    var c := limiter.AllowAt(T0 + 9000);
    decisions := [a, b, c];
  }

  /** The call at 11 s evicts the one at 0 s; the two after it find nothing stale. */
  method BoundaryLater(limiter: SlidingWindowLog) returns (decisions: seq<bool>)
    requires limiter.Valid() && limiter.capacity == 3 && limiter.windowSize == 10_000
    requires limiter.Log() == [T0, T0 + 9000, T0 + 9000]
    modifies limiter.requestLog, limiter.requestLog.buffer
    ensures decisions == [true, false, false]
  {
    assert [T0, T0 + 9000, T0 + 9000][1..] == [T0 + 9000, T0 + 9000];
    assert Evict([T0 + 9000, T0 + 9000], T0 + 11_000, 10_000) == [T0 + 9000, T0 + 9000];
    var d := limiter.AllowAt(T0 + 11_000);
    assert limiter.Log() == [T0 + 9000, T0 + 9000, T0 + 11_000];
    var e := limiter.AllowAt(T0 + 11_000);
    assert limiter.Log() == [T0 + 9000, T0 + 9000, T0 + 11_000];
    var f := limiter.AllowAt(T0 + 11_000);
    decisions := [d, e, f];
  }
}
