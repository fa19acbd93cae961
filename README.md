# Rate-limiter engines in Dafny

This project models the core of the Go rate-limiter library `minhthong582000/rate-limiter`:

- the generic ring buffer of `pkg/ringbuffer`;
- the five rate-limiting engines, each deciding whether a call arriving at a given time is
  admitted:
  - fixed window;
  - sliding-window log;
  - sliding-window counter;
  - token bucket;
  - leaky bucket;
- the engine-name mapping and the factory of `internal/engine/engine.go`.

Each Go file becomes one module:

| module | file | Go source |
|---|---|---|
| `Wrappers` | `wrappers.dfy` | `Option`, `Result` and `Outcome` (a Go `error` return) |
| `RingBuffers` | `ringbuffer.dfy` | `pkg/ringbuffer/ringbuffer.go` |
| `FixedSizeWindows` | `fixedsizewindow.dfy` | `internal/engine/fixedsizewindow/fixedsizewindow.go` |
| `SlidingWindowLogs` | `slidingwindowlog.dfy` | `internal/engine/slidingwindow/slidingwindowlog.go` |
| `SlidingWindowCounters` | `slidingwindowcounter.dfy` | `internal/engine/slidingwindow/slidingwindowcounter.go` |
| `TokenBuckets` | `tokenbucket.dfy` | `internal/engine/tokenbucket/tokenbucket.go` |
| `LeakyBuckets` | `leakybucket.dfy` | `internal/engine/leakybucket/leakybucket.go` |
| `Engines` | `engine.dfy` | `internal/engine/engine.go` |

The ring buffer is a class over an `array`. Its `PushBack`, `PopFront` and `Clear` update
`start`, `end` and the slots in place. Each is proved against `Contents()`, the elements read
circularly from `start` to `end`.

Each engine is a class with the fields the Go struct updates. Its `AllowAt(now)` method is
written the way the Go code is. Its contract ties the answer and the new state to a pure
`Step`, `Admit` or `Offer` function of the old state. The properties of the engine are proved
about that function:

- clock-skew denial;
- a denial changes nothing;
- bounds that every step preserves;
- how many calls a whole run of calls can admit.

The sliding-window log and the leaky bucket keep their queue in a `RingBuffer`, as the Go code
does.

Timestamps are integers:

- Unix nanoseconds for the fixed window;
- Unix milliseconds for the other engines.

Go's `float64` values are exact reals, except the sliding-window counter's two counts, which are
naturals (see "## Left out"). Panics in constructors are preconditions of the
constructor, stated through a pure check function (`CheckWindowSize`, `CheckRates`,
`CheckParams`) that returns the panic message. The factory models the same panics as a
`Panicked` outcome.

Where the code may surprise a reader, the model follows the code:

- The sliding-window counter numbers its windows `now / windowSize` from the Unix epoch. There
  is no origin fixed at construction.
- The token bucket admits the very first call unconditionally. It does this while `lastTime` is
  still 0, without looking at the tokens.
- The fixed window and the sliding-window log do not validate `capacity`.
- The sliding-window log has no clock-skew guard, unlike the other window engines. A call
  that arrives earlier than entries already in the log is admitted whenever the log has room
  after eviction.
- For `sliding-window-counter`, the factory returns no engine and no error. It does not build a
  counter.

## Model

| member | source | states |
|---|---|---|
| RingBuffers.IncrementIndex | pkg/ringbuffer/ringbuffer.go:43-45 | the next slot is always a valid slot: the one after `index`, or slot 0 after the last slot |
| RingBuffers.CircularLength | pkg/ringbuffer/ringbuffer.go:21-27 | a ring holds at most one element fewer than its slots; it is full exactly when the slot after `end` is `start`, and empty exactly when `start == end` |
| RingBuffers.CircularPush | pkg/ringbuffer/ringbuffer.go:52-54 | writing into the slot at `end` and advancing `end` appends the value to the contents |
| RingBuffers.CircularPop | pkg/ringbuffer/ringbuffer.go:64-66 | the slot at `start` holds the oldest element; clearing that slot and advancing `start` removes exactly that element |
| RingBuffers.RingBuffer.constructor | pkg/ringbuffer/ringbuffer.go:14-19 | a new buffer has `capacity + 1` zeroed slots; `Capacity()` is the requested capacity, `Size()` is 0, `StartIndex()` is 0, and the buffer is empty |
| RingBuffers.RingBuffer.IsFull | pkg/ringbuffer/ringbuffer.go:21-23 | full exactly when the buffer holds `Capacity()` elements |
| RingBuffers.RingBuffer.IsEmpty | pkg/ringbuffer/ringbuffer.go:25-27 | empty exactly when it holds no element |
| RingBuffers.RingBuffer.Capacity | pkg/ringbuffer/ringbuffer.go:29-31 | one less than the number of slots, and never below the number of elements held |
| RingBuffers.RingBuffer.Size | pkg/ringbuffer/ringbuffer.go:33-35 | the `uint64` difference `end - start`; it equals the element count exactly when `start <= end`, and after wrap-around it is off by 2^64 minus the slot count |
| RingBuffers.RingBuffer.Count | pkg/ringbuffer/ringbuffer.go:33-35 | the corrected size: always the number of elements held |
| RingBuffers.RingBuffer.StartIndex | pkg/ringbuffer/ringbuffer.go:37-39 | a valid slot, and the one that holds the oldest element |
| RingBuffers.RingBuffer.PeekFront | pkg/ringbuffer/ringbuffer.go:71-77 | fails with "ring is empty" exactly when the buffer is empty; otherwise returns the oldest element, which is what the next `PopFront` returns; changes nothing |
| RingBuffers.RingBuffer.PushBack | pkg/ringbuffer/ringbuffer.go:47-57 | on a full buffer, fails with "ring is full" and changes nothing; otherwise stores the value in the slot at `end`, advances `end` modulo the slot count, and appends the value to the contents |
| RingBuffers.RingBuffer.PopFront | pkg/ringbuffer/ringbuffer.go:59-69 | on an empty buffer, fails with "ring is empty" and changes nothing; otherwise returns the oldest element, zeroes its slot, advances `start`, and drops that element from the contents |
| RingBuffers.RingBuffer.Clear | pkg/ringbuffer/ringbuffer.go:79-85 | zeroes every slot and resets `start` and `end` to 0, leaving the buffer empty with `Size()` 0 |
| RingBuffers.FillFromEmpty | pkg/ringbuffer/ringbuffer_test.go:20-34 | from empty, exactly `Capacity()` pushes succeed; the buffer is then full and the next push fails |
| RingBuffers.EnqueueScenario | pkg/ringbuffer/ringbuffer_test.go:20-34 | capacity 3: three pushes succeed and leave the buffer full with size 3; a fourth push fails |
| RingBuffers.WrapAroundScenario | pkg/ringbuffer/ringbuffer_test.go:62-91 | FIFO order holds across wrap-around: pops return 5, 10, 15, the peek returns 15, and the buffer ends empty |
| RingBuffers.SizeAfterWrapAround | pkg/ringbuffer/ringbuffer.go:33-35 | after wrap-around, `Size` returns 2^64 - 1 while `Count` returns the true count, 2 |
| FixedSizeWindows.CheckWindowSize | internal/engine/fixedsizewindow/fixedsizewindow.go:20-22 | the constructor panics exactly when `windowSize <= 0`; `capacity` is not checked |
| FixedSizeWindows.Step | internal/engine/fixedsizewindow/fixedsizewindow.go:30-54 | denies a call before the window start; a denial changes nothing; a first call, or one strictly more than `windowSize` after the start, opens a new window with count 1; within a window a call is admitted exactly when `currCount < capacity`, and the count grows by one; the window start never moves back; the count bound is preserved |
| FixedSizeWindows.WithinWindowBound | internal/engine/fixedsizewindow/fixedsizewindow.go:47-51 | calls within `windowSize` of the window start admit at most the room left in the window, and the window does not move |
| FixedSizeWindows.FreshEngineBound | internal/engine/fixedsizewindow/fixedsizewindow.go:40-51 | a new engine admits at most `capacity` of any burst that lies within `windowSize` of its first call |
| FixedSizeWindows.FixedSizeWindow.constructor | internal/engine/fixedsizewindow/fixedsizewindow.go:16-28 | a new engine has the given parameters, with count 0 and window start 0 |
| FixedSizeWindows.FixedSizeWindow.AllowAt | internal/engine/fixedsizewindow/fixedsizewindow.go:30-54 | the answer and the new fields are exactly those `Step` gives for the old fields |
| FixedSizeWindows.BasicScenario | internal/engine/fixedsizewindow/fixedsizewindow_test.go:13-40 | capacity 3, window 1 s: four calls at T give three admits and a deny; a call at T+2 s is admitted |
| FixedSizeWindows.BoundaryScenario | internal/engine/fixedsizewindow/fixedsizewindow_test.go:43-65 | capacity 3, window 10 s: calls at 0, 9, 9, 11, 11 and 11 s are all admitted |
| FixedSizeWindows.ExactBoundaryScenario | internal/engine/fixedsizewindow/fixedsizewindow.go:40 | the reset test is strict: a call exactly `windowSize` after the start stays in the full window and is denied |
| SlidingWindowLogs.CheckWindowSize | internal/engine/slidingwindow/slidingwindowlog.go:21-23 | the constructor panics exactly when `windowSize <= 0` |
| SlidingWindowLogs.Evict | internal/engine/slidingwindow/slidingwindowlog.go:36-43 | eviction never grows the log |
| SlidingWindowLogs.EvictKeepsSuffix | internal/engine/slidingwindow/slidingwindowlog.go:36-43 | eviction keeps a suffix of the log; every entry it drops is strictly more than `windowSize` old; it stops at an entry that is not, so an entry exactly `windowSize` old is kept |
| SlidingWindowLogs.EvictIsWindow | internal/engine/slidingwindow/slidingwindowlog.go:36-43 | for a log in time order, evicting only from the front leaves exactly the entries that lie within the window |
| SlidingWindowLogs.AdmitKeepsSorted | internal/engine/slidingwindow/slidingwindowlog.go:45-48 | when arrivals come in time order, the log stays in time order after eviction and a push |
| SlidingWindowLogs.FullAfterEvictionMeansNoPop | internal/engine/slidingwindow/slidingwindowlog.go:36-50 | the log is still full after eviction only if eviction popped nothing |
| SlidingWindowLogs.Admit | internal/engine/slidingwindow/slidingwindowlog.go:32-51 | the log never exceeds `capacity`; a denial leaves it unchanged; an admission appends the arrival after the evicted log; a call is denied exactly when the log is full and its oldest entry is not stale |
| SlidingWindowLogs.RunSplits | internal/engine/slidingwindow/slidingwindowlog.go:32-51 | running calls one after another in two parts gives the same admissions and log as running them all at once |
| SlidingWindowLogs.Recent | internal/engine/slidingwindow/slidingwindowlog.go:36-48 | the number of log entries recorded at or after a given time is at most the length of the log |
| SlidingWindowLogs.EvictKeepsRecent | internal/engine/slidingwindow/slidingwindowlog.go:36-43 | a call at most `windowSize` after `t0` evicts no entry recorded at `t0` or later |
| SlidingWindowLogs.WithinWindowBound | internal/engine/slidingwindow/slidingwindowlog.go:32-51 | calls that all arrive within one window `[t0, t0 + windowSize]`, in any order and after any history, add one entry from that window per admission and evict none; so the admitted calls, together with the window's entries already in the log, number at most `capacity` |
| SlidingWindowLogs.SlidingBound | internal/engine/slidingwindow/slidingwindowlog.go:32-51 | whatever came before, any consecutive calls that all arrive within one window of length `windowSize` admit at most `capacity` of themselves |
| SlidingWindowLogs.FreshLogBound | internal/engine/slidingwindow/slidingwindowlog_test.go:84-106 | a new log admits at most `capacity` of any calls that all arrive within `windowSize` of the first |
| SlidingWindowLogs.SlidingWindowLog.constructor | internal/engine/slidingwindow/slidingwindowlog.go:17-30 | a new engine has the given parameters and an empty log of `capacity` entries |
| SlidingWindowLogs.SlidingWindowLog.AllowAt | internal/engine/slidingwindow/slidingwindowlog.go:32-51 | the eviction loop and the push leave exactly the answer and the log that `Admit` gives |
| SlidingWindowLogs.BasicScenario | internal/engine/slidingwindow/slidingwindowlog_test.go:22-49 | capacity 3, window 1 s: four calls at T give three admits and a deny; a call at T+2 s is admitted |
| SlidingWindowLogs.BasicBurst | internal/engine/slidingwindow/slidingwindowlog_test.go:22-49 | the four calls at T: three admits, a deny, and the log holds three entries at T |
| SlidingWindowLogs.BoundaryScenario | internal/engine/slidingwindow/slidingwindowlog_test.go:52-82 | capacity 3, window 10 s: of calls at 0, 9, 9, 11, 11 and 11 s, the first four are admitted and the last two denied |
| SlidingWindowLogs.BoundaryFill | internal/engine/slidingwindow/slidingwindowlog_test.go:52-82 | the calls at 0, 9 and 9 s are admitted and fill the log |
| SlidingWindowLogs.BoundaryLater | internal/engine/slidingwindow/slidingwindowlog_test.go:52-82 | the call at 11 s evicts the call at 0 s and is admitted; the next two find the log full |
| SlidingWindowCounters.CheckWindowSize | internal/engine/slidingwindow/slidingwindowcounter.go:25-27 | the constructor panics exactly when `windowSize <= 0` |
| SlidingWindowCounters.GoDiv | internal/engine/slidingwindow/slidingwindowcounter.go:52 | Go's `int64` division truncates toward zero: the remainder lies within one divisor of 0 and has the dividend's sign |
| SlidingWindowCounters.GoMod | internal/engine/slidingwindow/slidingwindowcounter.go:72 | Go's `%`: together with `GoDiv` it rebuilds the dividend, and it has the dividend's sign |
| SlidingWindowCounters.WindowOf | internal/engine/slidingwindow/slidingwindowcounter.go:52 | a time `w * windowSize + offset` lies in window `w`, at `offset` into it |
| SlidingWindowCounters.Rollover | internal/engine/slidingwindow/slidingwindowcounter.go:60-69 | within the same window nothing changes; in the next window, the current count becomes the previous count; after a gap, both counts are 0 |
| SlidingWindowCounters.Weight | internal/engine/slidingwindow/slidingwindowcounter.go:72 | the previous window's weight is positive; it is at most 1 for times after the epoch; it is exactly 1 at a window boundary |
| SlidingWindowCounters.Estimate | internal/engine/slidingwindow/slidingwindowcounter.go:73 | the estimate is at least the current count, and equals it when the previous count is 0 |
| SlidingWindowCounters.FitsWholeCapacity | internal/engine/slidingwindow/slidingwindowcounter.go:75-76 | with a whole-number capacity `c`, a count reached by increments made while below `c` is at most `c` |
| SlidingWindowCounters.Step | internal/engine/slidingwindow/slidingwindowcounter.go:41-86 | a call in a window before the current one is denied; a denial changes nothing, not even the rollover; an admission publishes the rolled-over snapshot with the call counted; the window number never moves back; the count bounds are preserved |
| SlidingWindowCounters.StepDecides | internal/engine/slidingwindow/slidingwindowcounter.go:75-84 | a call is admitted exactly when its window is not behind the current one and the weighted estimate is below capacity |
| SlidingWindowCounters.StepTracks | internal/engine/slidingwindow/slidingwindowcounter.go:52-76 | each call keeps the two counts equal to the admissions recorded in the current window and the one before it |
| SlidingWindowCounters.RunTracks | internal/engine/slidingwindow/slidingwindowcounter.go:41-86 | along any sequence of calls, the counts match the record of admissions by window |
| SlidingWindowCounters.RunAtMostPerWindow | internal/engine/slidingwindow/slidingwindowcounter.go:60-84 | with a whole-number capacity `c`, along any sequence of calls, no window ever admits more than `c` calls |
| SlidingWindowCounters.FreshEngineCounts | internal/engine/slidingwindow/slidingwindowcounter.go:33-37 | from the initial snapshot, the counts are the admissions in the current and previous windows, and every window admits at most `c` |
| SlidingWindowCounters.SlidingWindowCounter.constructor | internal/engine/slidingwindow/slidingwindowcounter.go:21-39 | a new engine has the given parameters and the snapshot (0, 0, 0) |
| SlidingWindowCounters.SlidingWindowCounter.AllowAt | internal/engine/slidingwindow/slidingwindowcounter.go:41-86 | the answer and the new snapshot are exactly those `Step` gives for the old snapshot |
| SlidingWindowCounters.BasicScenario | internal/engine/slidingwindow/slidingwindowcounter_test.go:27-63 | capacity 3, window 10 s: the ten calls of the case give admit ×3, deny, deny, admit, deny, admit ×3 |
| SlidingWindowCounters.BasicBurst | internal/engine/slidingwindow/slidingwindowcounter_test.go:27-63 | four calls at T: three admits and a deny, leaving counts (3, 0) |
| SlidingWindowCounters.BasicNextWindow | internal/engine/slidingwindow/slidingwindowcounter_test.go:27-63 | the calls at 10, 11 and 12 s: deny (estimate 3), admit (estimate 2.7), deny (estimate 3.4) |
| SlidingWindowCounters.BasicLater | internal/engine/slidingwindow/slidingwindowcounter_test.go:27-63 | the calls at 17, 19 and 30 s are all admitted |
| SlidingWindowCounters.BoundaryScenario | internal/engine/slidingwindow/slidingwindowcounter_test.go:66-100 | the case's six calls give admit ×4 and deny ×2 |
| SlidingWindowCounters.ClockSkewScenario | internal/engine/slidingwindow/slidingwindowcounter_test.go:138-158 | a call on the previous day, after one on 2025-01-02, is denied |
| TokenBuckets.CheckRates | internal/engine/tokenbucket/tokenbucket.go:27-33 | the constructor panics exactly when `consumeRate` is outside `(0, capacity]` or `fillRate <= 0`, with the consume-rate message checked first |
| TokenBuckets.Initial | internal/engine/tokenbucket/tokenbucket.go:40-43 | a new bucket is full and has no call yet (time 0) |
| TokenBuckets.Refill | internal/engine/tokenbucket/tokenbucket.go:72-75 | the refilled tokens are the smaller of `capacity` and the uncapped refill |
| TokenBuckets.Step | internal/engine/tokenbucket/tokenbucket.go:47-88 | a call before the last admitted one is denied; a denial changes nothing, not even the time; the first call is admitted and leaves `capacity - consumeRate`; otherwise a call is admitted exactly when the capped refill covers `consumeRate`, which it spends; the token bounds are preserved |
| TokenBuckets.StepSpends | internal/engine/tokenbucket/tokenbucket.go:72-86 | an admitted call spends only tokens the bucket held or gained since the last admission; a denial that is not a clock skew means even the uncapped refill falls short |
| TokenBuckets.ConservesAfterAdmit | internal/engine/tokenbucket/tokenbucket.go:77-86 | one admitted call followed by a run that conserves tokens is itself a run that conserves tokens |
| TokenBuckets.RunConserves | internal/engine/tokenbucket/tokenbucket.go:47-88 | after the first call, along any sequence of calls, the tokens spent are at most the tokens held plus the refill between the first and last admissions; the bucket stays within bounds |
| TokenBuckets.FirstCallAdmitted | internal/engine/tokenbucket/tokenbucket.go:62-70 | the first call on a new bucket is admitted and leaves a full bucket less one call |
| TokenBuckets.FreshRunConserves | internal/engine/tokenbucket/tokenbucket.go:62-70 | from a new bucket, tokens are conserved from the bucket the first call leaves |
| TokenBuckets.ConservedFromFirstCall | internal/engine/tokenbucket/tokenbucket.go:64 | with that conservation, the calls admitted by `horizon` spend at most `capacity` plus the refill since the first call |
| TokenBuckets.FreshBucketBound | internal/engine/tokenbucket/tokenbucket.go:47-88 | from a new bucket, the admitted calls spend at most `capacity` plus `fillRate` times the time from the first call to the horizon; in particular, calls at one instant admit at most `capacity / consumeRate` |
| TokenBuckets.TokenBucket.constructor | internal/engine/tokenbucket/tokenbucket.go:22-45 | a new engine has the given rates and a full bucket at time 0 |
| TokenBuckets.TokenBucket.AllowAt | internal/engine/tokenbucket/tokenbucket.go:47-88 | the answer and the new snapshot are exactly those `Step` gives for the old snapshot |
| TokenBuckets.BasicScenario | internal/engine/tokenbucket/tokenbucket_test.go:13-45 | capacity 3, fill 1 per ms, consume 1: four calls at T give three admits and a deny; a call at T+2 ms is admitted |
| TokenBuckets.ClockSkewScenario | internal/engine/tokenbucket/tokenbucket_test.go:75-90 | after a call on 2025-01-02, a call at an earlier time is denied |
| LeakyBuckets.CheckParams | internal/engine/leakybucket/leakybucket.go:24-30 | the constructor panics exactly when `drainRate <= 0` or `capacity == 0`, with the drain-rate message checked first |
| LeakyBuckets.Offer | internal/engine/leakybucket/leakybucket.go:44-60 | a call is admitted exactly when the queue has room, and is then appended to the queue; a denial leaves the queue unchanged; the queue never exceeds `capacity` |
| LeakyBuckets.OfferIgnoresTime | internal/engine/leakybucket/leakybucket.go:48-59 | the decision depends only on how full the queue is, never on the arrival time |
| LeakyBuckets.Drain | internal/engine/leakybucket/leakybucket.go:75-82 | a tick on an empty queue does nothing; otherwise it processes the oldest entry, and that entry followed by the rest is the old queue |
| LeakyBuckets.RunBound | internal/engine/leakybucket/leakybucket.go:44-84 | over any interleaving of calls and ticks, the queue stays within `capacity`, and admissions number at most the free room at the start plus the ticks |
| LeakyBuckets.FreshBucketBound | internal/engine/leakybucket/leakybucket.go:44-84 | a new bucket admits at most `capacity` calls plus one per tick |
| LeakyBuckets.LeakyBucket.constructor | internal/engine/leakybucket/leakybucket.go:19-42 | a new engine has the given parameters and an empty queue of `capacity` entries |
| LeakyBuckets.LeakyBucket.AllowAt | internal/engine/leakybucket/leakybucket.go:44-60 | the answer and the new queue are exactly those `Offer` gives for the old queue |
| LeakyBuckets.LeakyBucket.LeakTick | internal/engine/leakybucket/leakybucket.go:73-84 | the processed entry and the new queue are exactly those `Drain` gives for the old queue |
| LeakyBuckets.BasicScenario | internal/engine/leakybucket/leakybucket_test.go:23-53 | capacity 3: three calls are admitted and a fourth denied; after a tick drains the oldest entry, the next call is admitted |
| Engines.StringToEngineType | internal/engine/engine.go:23-38 | each of the five names maps to the engine kind with the same text, so `StringToEngineType(string(k)) == k`; any other string maps to the empty kind |
| Engines.StringToEngineTypeIdempotent | internal/engine/engine.go:15-38 | mapping twice gives what mapping once gives, and the result is a known kind exactly when the input was one |
| Engines.Dispatch | internal/engine/engine.go:54-83 | an error "invalid rate-limiter engine type" exactly when the kind is not one of the five names, `""` included; no engine and no error for `sliding-window-counter`; the configured engine for the other four kinds, unless its constructor panics |
| Engines.ParsedKindDispatch | internal/engine/engine.go:54-81 | a kind that came from `StringToEngineType` makes the factory fail exactly when the string was not one of the five names |
| Engines.EngineFactory | internal/engine/engine.go:47-84 | returns or panics as `Dispatch` says; a built engine is fresh, valid and initial, and carries the configured parameters |

## Left out

- Concurrency is not modelled:
  - the `atomic` compare-and-swap retry loops of the fixed window, the counter and the token bucket;
  - the mutexes of the sliding-window log and the leaky bucket.

  Each `AllowAt` is one sequential call in which the compare-and-swap succeeds. The tests that
  race goroutines are outside a sequential model.
- `Allow()` reads the clock, so only `AllowAt` is modelled, with the time as a parameter.
- The leaky bucket's drain goroutine is not modelled: its ticker, its stop channel and its
  select loop. One tick of its body is `LeakTick`.
- Logging with `fmt.Println` and `fmt.Printf` is not modelled.
- `float64` rounding is not modelled. Weights, estimates, tokens and rates are exact reals.
- SlidingWindowCounters.State: the Go counts `currCount` and `prevCount` are `float64`, but the
  model makes them naturals. They start at 0 and change only by adding 1, by resetting to 0, or by
  copying one into the other, so they are always whole numbers. They stay exact in `float64` below 2^53 calls.
- `time.Time` handling is not modelled. Timestamps are already integers:
  - the conversions to Unix milliseconds and nanoseconds;
  - the truncation of `Sub(...).Milliseconds()` in the sliding-window log;
  - `int64` overflow of time differences.
- Go's `uint64` wrap-around of `currCount.Add(1)` in the fixed window is not modelled. Counts
  are unbounded naturals, because the wrap needs 2^64 calls.
- The `capacity + 1` overflow of `NewRingBuffer` at the largest `uint64` is excluded by
  preconditions. The ring-buffer constructor, the sliding-window log and the leaky bucket each
  require `capacity + 1 < 2^64`. `Engines.EngineFactory` requires it only when the configured
  kind is one of those two engines.
- Engines.Config: a plain record, because the functional options that fill it only set
  fields. It has a `windowSize` field, which the factory reads, although the Go `Config` has no
  such field. It has a whole-number `capacity`: the Go `Config` declares it `float64`, but
  passes it to `uint64` parameters, and the token bucket gets `capacity as real`.
- Engines.EngineFactory: builds the leaky bucket without starting its drain goroutine and
  without the stop channel.
- TokenBuckets.FreshBucketBound: assumes the first arrival is after the epoch (`times[0] > 0`).
  A bucket whose last call was at time 0 would treat the next call as a first call again.
- FixedSizeWindows.FreshEngineBound: likewise assumes the first arrival is after the epoch. It
  also assumes `capacity >= 1`, because a reset always admits its opening call, even at capacity 0.
- TokenBuckets.ClockSkewScenario: sends the zero time, year 1, as its earlier call. The
  earlier timestamp of that test carries no zone, so Go's parser rejects it and the test sends
  the zero time.

## Findings

| source | as written | input that shows it | evidently intended | confidence | as-written member | corrected member |
|---|---|---|---|---|---|---|
| pkg/ringbuffer/ringbuffer.go:33-35 | `Size()` returns the `uint64` difference `end - start` | capacity 2: push, push, pop, push leaves `start = 1`, `end = 0` with two elements; `Size()` is 2^64 - 1 | the number of stored elements, 2 | high; not executed | RingBuffers.SizeAfterWrapAround | RingBuffers.RingBuffer.Count |
