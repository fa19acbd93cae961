/**
 * The token-bucket engine of internal/engine/tokenbucket/tokenbucket.go. The bucket holds up to
 * `capacity` tokens and gains `fillRate` tokens per elapsed millisecond; a call is admitted when
 * the refilled bucket holds at least `consumeRate` tokens, which it then spends. The very first
 * call (while `lastTime` is still 0) is admitted unconditionally. Timestamps are Unix
 * milliseconds; Go's `float64` token counts and rates are exact reals here.
 */
module TokenBuckets {
  import opened Wrappers

  const ErrConsumeRate := "consume rate must be > 0 and <= capacity"
  const ErrFillRate := "fill rate must be > 0"

  /** `NewTokenBucket`'s checks, in the order it makes them: the panic message, if any. */
  function CheckRates(capacity: real, fillRate: real, consumeRate: real): (panic: Option<string>)
    ensures panic.None? <==> 0.0 < consumeRate <= capacity && fillRate > 0.0
    ensures !(0.0 < consumeRate <= capacity) ==> panic == Some(ErrConsumeRate)
    ensures (0.0 < consumeRate <= capacity && fillRate <= 0.0) ==> panic == Some(ErrFillRate)
  {
    if consumeRate <= 0.0 || consumeRate > capacity then Some(ErrConsumeRate)
    else if fillRate <= 0.0 then Some(ErrFillRate)
    else None
  }

  /** The bucket's snapshot: tokens left after the last admitted call, and that call's time. */
  datatype Bucket = Bucket(currToken: real, lastTime: int)

  /** What one `AllowAt` call answers and the snapshot it leaves behind. */
  datatype Decision = Decision(allowed: bool, next: Bucket)

  /** The snapshot `NewTokenBucket` stores: a full bucket and no call yet. */
  function Initial(capacity: real): (b: Bucket)
    ensures b.currToken == capacity && b.lastTime == 0
  {
    Bucket(capacity, 0)
  }

  /** `math.Min(capacity, tokens + fillRate * elapsed)`: the tokens after `elapsed`
      milliseconds of refill, capped at `capacity`. */
  function Refill(capacity: real, fillRate: real, tokens: real, elapsed: int): (t: real)
    ensures t <= capacity && t <= tokens + fillRate * elapsed as real
    ensures t == capacity || t == tokens + fillRate * elapsed as real
  {
    var filled := tokens + fillRate * elapsed as real;
    if capacity <= filled then capacity else filled
  }

  ghost predicate Bounded(capacity: real, b: Bucket)
  {
    0.0 <= b.currToken <= capacity
  }

  /** One sequential `AllowAt(now)`, the compare-and-swap always succeeding. */
  function Step(capacity: real, fillRate: real, consumeRate: real, b: Bucket, now: int): (d: Decision)
    // clock skew: an arrival before the last admitted one is denied
    ensures now < b.lastTime ==> !d.allowed
    // a denial publishes nothing: neither the tokens nor the time move
    ensures !d.allowed ==> d.next == b
    ensures d.allowed ==> d.next.lastTime == now
    // the first call is always admitted and leaves a full bucket less one call's tokens
    ensures (b.lastTime == 0 && now >= 0) ==> d == Decision(true, Bucket(capacity - consumeRate, now))
    // otherwise a call is admitted exactly when the capped refill covers it, and spends it
    ensures (b.lastTime != 0 && now >= b.lastTime)
            ==> (&& (d.allowed <==> Refill(capacity, fillRate, b.currToken, now - b.lastTime) >= consumeRate)
                 && (d.allowed ==> d.next.currToken == Refill(capacity, fillRate, b.currToken, now - b.lastTime) - consumeRate))
    ensures (CheckRates(capacity, fillRate, consumeRate).None? && Bounded(capacity, b)) ==> Bounded(capacity, d.next)
  {
    var elapsed := now - b.lastTime;
    if elapsed < 0 then Decision(false, b)
    else if b.lastTime == 0 then Decision(true, Bucket(capacity - consumeRate, now))
    else
      var tokens := Refill(capacity, fillRate, b.currToken, elapsed);
      if tokens >= consumeRate then Decision(true, Bucket(tokens - consumeRate, now))
      else Decision(false, b)
  }

  /** An admitted call spends tokens the bucket held or gained since the last admission, and
      never leaves more than a full bucket less one call; a denial that is not a clock skew
      means even the uncapped refill falls short of one call. */
  lemma StepSpends(capacity: real, fillRate: real, consumeRate: real, b: Bucket, now: int)
    ensures var d := Step(capacity, fillRate, consumeRate, b, now);
            (d.allowed && b.lastTime != 0)
            ==> (&& d.next.currToken + consumeRate <= b.currToken + fillRate * (now - b.lastTime) as real
                 && d.next.currToken + consumeRate <= capacity)
    ensures var d := Step(capacity, fillRate, consumeRate, b, now);
            (!d.allowed && now >= b.lastTime && consumeRate <= capacity)
            ==> (b.lastTime != 0 && b.currToken + fillRate * (now - b.lastTime) as real < consumeRate)
  {
  }

  /** The number of admitted calls and the final snapshot after a sequence of calls. */
  datatype Tally = Tally(admitted: nat, last: Bucket)

  /** The calls at `times`, in order, from snapshot `b`, adding to `admitted` admissions so far. */
  function Run(capacity: real, fillRate: real, consumeRate: real, b: Bucket, admitted: nat, times: seq<int>): Tally
    decreases |times|
  {
    if times == [] then Tally(admitted, b)
    else
      var d := Step(capacity, fillRate, consumeRate, b, times[0]);
      Run(capacity, fillRate, consumeRate, d.next, if d.allowed then admitted + 1 else admitted, times[1..])
  }

  /** The tokens `calls` admitted calls spend, one `consumeRate` each. */
  function Spent(calls: nat, consumeRate: real): real
    decreases calls
  {
    if calls == 0 then 0.0 else Spent(calls - 1, consumeRate) + consumeRate
  }

  lemma {:induction false} SpentIsProduct(calls: nat, consumeRate: real)
    ensures Spent(calls, consumeRate) == calls as real * consumeRate
    decreases calls
  {
    if calls > 0 {
      SpentIsProduct(calls - 1, consumeRate);
      var fewer := (calls - 1) as real;
      assert calls as real == fewer + 1.0;
      assert (fewer + 1.0) * consumeRate == fewer * consumeRate + consumeRate;
    }
  }

  /** Refill over two consecutive stretches of time adds up to the refill over both. */
  lemma RefillAdds(fillRate: real, from: int, via: int, to: int)
    ensures fillRate * (via - from) as real + fillRate * (to - via) as real == fillRate * (to - from) as real
  {
  }

  /** The bookkeeping of one admitted call followed by the rest of a run, in plain reals. */
  lemma Chain(spent0: real, spent1: real, spent2: real, consumeRate: real,
              tokens0: real, tokens1: real, tokens2: real, gain1: real, gain2: real, gain: real)
    requires spent1 == spent0 + consumeRate
    requires tokens1 + consumeRate <= tokens0 + gain1
    requires spent2 + tokens2 <= spent1 + tokens1 + gain2
    requires gain1 + gain2 == gain
    ensures spent2 + tokens2 <= spent0 + tokens0 + gain
  {
  }

  /** `t` is within bounds, not before `b` nor after `horizon`, and the calls admitted between
      `b` and `t` spent no more than `b` held plus the refill between their times. */
  ghost predicate Conserves(capacity: real, fillRate: real, consumeRate: real, b: Bucket, admitted: nat, t: Tally, horizon: int)
  {
    && Bounded(capacity, t.last)
    && b.lastTime <= t.last.lastTime <= horizon
    && Spent(t.admitted, consumeRate) + t.last.currToken
       <= Spent(admitted, consumeRate) + b.currToken + fillRate * (t.last.lastTime - b.lastTime) as real
  }

  /** An admitted call that spent tokens the bucket held or gained, followed by a run that
      conserves tokens, conserves them from before the call. */
  lemma ConservesAfterAdmit(capacity: real, fillRate: real, consumeRate: real, b: Bucket, next: Bucket, admitted: nat, t: Tally, horizon: int)
    requires b.lastTime <= next.lastTime
    requires next.currToken + consumeRate <= b.currToken + fillRate * (next.lastTime - b.lastTime) as real
    requires Conserves(capacity, fillRate, consumeRate, next, admitted + 1, t, horizon)
    ensures Conserves(capacity, fillRate, consumeRate, b, admitted, t, horizon)
  {
    var gainedFirst := fillRate * (next.lastTime - b.lastTime) as real;
    var gainedLater := fillRate * (t.last.lastTime - next.lastTime) as real;
    assert Spent(admitted + 1, consumeRate) == Spent(admitted, consumeRate) + consumeRate;
    RefillAdds(fillRate, b.lastTime, next.lastTime, t.last.lastTime);
    Chain(Spent(admitted, consumeRate), Spent(admitted + 1, consumeRate), Spent(t.admitted, consumeRate), consumeRate,
          b.currToken, next.currToken, t.last.currToken,
          gainedFirst, gainedLater, fillRate * (t.last.lastTime - b.lastTime) as real);
  }

  /** After the first call, tokens are conserved: the calls admitted along any sequence spend no
      more than the bucket held plus what it gained between its first and last admission; the
      bucket also stays within bounds and its time never moves back or past `horizon`. */
  lemma {:induction false} RunConserves(capacity: real, fillRate: real, consumeRate: real, b: Bucket, admitted: nat, times: seq<int>, horizon: int)
    requires CheckRates(capacity, fillRate, consumeRate).None?
    requires Bounded(capacity, b) && 0 < b.lastTime <= horizon
    requires forall i :: 0 <= i < |times| ==> times[i] <= horizon
    ensures Conserves(capacity, fillRate, consumeRate, b, admitted, Run(capacity, fillRate, consumeRate, b, admitted, times), horizon)
    decreases |times|
  {
    if times == [] {
      assert fillRate * (b.lastTime - b.lastTime) as real == 0.0;
      assert Run(capacity, fillRate, consumeRate, b, admitted, times) == Tally(admitted, b);
      assert Conserves(capacity, fillRate, consumeRate, b, admitted, Run(capacity, fillRate, consumeRate, b, admitted, times), horizon);
    } else {
      var d := Step(capacity, fillRate, consumeRate, b, times[0]);
      var count := if d.allowed then admitted + 1 else admitted;
      RunConserves(capacity, fillRate, consumeRate, d.next, count, times[1..], horizon);
      var t := Run(capacity, fillRate, consumeRate, d.next, count, times[1..]);
      assert Run(capacity, fillRate, consumeRate, b, admitted, times) == t;
      if d.allowed {
        StepSpends(capacity, fillRate, consumeRate, b, times[0]);
        ConservesAfterAdmit(capacity, fillRate, consumeRate, b, d.next, admitted, t, horizon);
      } else {
        assert d.next == b && count == admitted;
        assert Conserves(capacity, fillRate, consumeRate, b, admitted, Run(capacity, fillRate, consumeRate, b, admitted, times), horizon);
      }
    }
  }

  /** From a new bucket, the calls admitted among arrivals that start after the epoch and end by
      `horizon` spend at most a full bucket plus the refill between the first arrival and
      `horizon`. */
  lemma {:induction false} FreshBucketBound(capacity: real, fillRate: real, consumeRate: real, times: seq<int>, horizon: int)
    requires CheckRates(capacity, fillRate, consumeRate).None?
    requires times != [] && 0 < times[0]
    requires forall i :: 0 <= i < |times| ==> times[i] <= horizon
    ensures Run(capacity, fillRate, consumeRate, Initial(capacity), 0, times).admitted as real * consumeRate
            <= capacity + fillRate * (horizon - times[0]) as real
  {
    FreshRunConserves(capacity, fillRate, consumeRate, times, horizon);
    ConservedFromFirstCall(capacity, fillRate, consumeRate, times[0],
                           Run(capacity, fillRate, consumeRate, Initial(capacity), 0, times), horizon);
  }

  /** From a new bucket, tokens are conserved from the bucket the first call leaves. */
  lemma FreshRunConserves(capacity: real, fillRate: real, consumeRate: real, times: seq<int>, horizon: int)
    requires CheckRates(capacity, fillRate, consumeRate).None?
    requires times != [] && 0 < times[0]
    requires forall i :: 0 <= i < |times| ==> times[i] <= horizon
    ensures Conserves(capacity, fillRate, consumeRate, Bucket(capacity - consumeRate, times[0]), 1,
                      Run(capacity, fillRate, consumeRate, Initial(capacity), 0, times), horizon)
  {
    FirstCallAdmitted(capacity, fillRate, consumeRate, times);
    RunConserves(capacity, fillRate, consumeRate, Bucket(capacity - consumeRate, times[0]), 1, times[1..], horizon);
  }

  /** The first call on a new bucket is admitted and leaves a full bucket less one call. */
  lemma FirstCallAdmitted(capacity: real, fillRate: real, consumeRate: real, times: seq<int>)
    requires times != [] && 0 < times[0]
    ensures Run(capacity, fillRate, consumeRate, Initial(capacity), 0, times)
            == Run(capacity, fillRate, consumeRate, Bucket(capacity - consumeRate, times[0]), 1, times[1..])
  {
    assert Step(capacity, fillRate, consumeRate, Initial(capacity), times[0])
           == Decision(true, Bucket(capacity - consumeRate, times[0]));
  }

  /** Conservation from the bucket the first call leaves bounds everything spent by `horizon`. */
  lemma ConservedFromFirstCall(capacity: real, fillRate: real, consumeRate: real, start: int, t: Tally, horizon: int)
    requires fillRate > 0.0
    requires Conserves(capacity, fillRate, consumeRate, Bucket(capacity - consumeRate, start), 1, t, horizon)
    ensures t.admitted as real * consumeRate <= capacity + fillRate * (horizon - start) as real
  {
    var first := Bucket(capacity - consumeRate, start);
    SpentIsProduct(t.admitted, consumeRate);
    var gainedBefore := fillRate * (t.last.lastTime - first.lastTime) as real;
    var gainedAfter := fillRate * (horizon - t.last.lastTime) as real;
    RefillAdds(fillRate, first.lastTime, t.last.lastTime, horizon);
    GainNonNegative(fillRate, horizon - t.last.lastTime);
    assert Spent(1, consumeRate) == consumeRate;
    FirstCallChain(Spent(t.admitted, consumeRate), Spent(1, consumeRate), consumeRate, capacity, first.currToken,
                   t.last.currToken, gainedBefore, gainedAfter, fillRate * (horizon - first.lastTime) as real);
  }

  lemma GainNonNegative(fillRate: real, elapsed: int)
    requires fillRate > 0.0 && elapsed >= 0
    ensures fillRate * elapsed as real >= 0.0
  {
  }

  /** The bookkeeping of a first call that leaves a full bucket less one call, followed by the
      rest of a run, in plain reals. */
  lemma FirstCallChain(spent: real, spentFirst: real, consumeRate: real, capacity: real, tokensFirst: real,
                       tokens: real, gain1: real, gain2: real, gain: real)
    requires spent + tokens <= spentFirst + tokensFirst + gain1
    requires spentFirst == consumeRate && tokensFirst == capacity - consumeRate
    requires tokens >= 0.0 && gain2 >= 0.0
    requires gain1 + gain2 == gain
    ensures spent <= capacity + gain
  {
  }

  class TokenBucket {
    const capacity: real
    const fillRate: real
    const consumeRate: real
    var state: Bucket

    ghost predicate Valid()
      reads this
    {
      CheckRates(capacity, fillRate, consumeRate).None? && Bounded(capacity, state)
    }

    /** `NewTokenBucket`; its two panics are this precondition. */
    constructor (capacity: real, fillRate: real, consumeRate: real)
      requires CheckRates(capacity, fillRate, consumeRate).None?
      ensures Valid()
      ensures this.capacity == capacity && this.fillRate == fillRate && this.consumeRate == consumeRate
      ensures state == Initial(capacity)
    {
      this.capacity := capacity;
      this.fillRate := fillRate;
      this.consumeRate := consumeRate;
      state := Bucket(capacity, 0);
    }

    /** Refills the bucket for the time since the last admitted call and publishes the spent
        bucket iff it covers one call; the first call is admitted without a refill. */
    method AllowAt(now: int) returns (allowed: bool)
      requires Valid()
      modifies this
      ensures Valid()
      ensures Decision(allowed, state) == Step(capacity, fillRate, consumeRate, old(state), now)
    {
      var lastState := state;
      var elapsed := now - lastState.lastTime;
      if elapsed < 0 {
        return false;
      }
      if lastState.lastTime == 0 {
        state := Bucket(capacity - consumeRate, now);
        return true;
      }
      var filled := lastState.currToken + fillRate * elapsed as real;
      var currToken := if capacity <= filled then capacity else filled;
      if currToken >= consumeRate {
        state := Bucket(currToken - consumeRate, now);
        return true;
      }
      return false;
    }
  }

  /** 2025-01-01T00:00:00Z in Unix milliseconds. */
  const T0 := 1_735_689_600_000

  /** Capacity 3, one token per millisecond, one token per call: four calls at T0 give three
      admits and a deny, and a call 2 ms later finds two new tokens and is admitted. */
  method BasicScenario() returns (decisions: seq<bool>)
    ensures decisions == [true, true, true, false, true]
  {
    var limiter := new TokenBucket(3.0, 1.0, 1.0);
    var a := limiter.AllowAt(T0);
    assert limiter.state == Bucket(2.0, T0);
    var b := limiter.AllowAt(T0);
    assert limiter.state == Bucket(1.0, T0);
    var c := limiter.AllowAt(T0);
    assert limiter.state == Bucket(0.0, T0);
    var d := limiter.AllowAt(T0);
    var e := limiter.AllowAt(T0 + 2);
    decisions := [a, b, c, d, e];
  }

  /** Go's zero `time.Time` (0001-01-01T00:00:00Z) in Unix milliseconds: what a timestamp that
      fails to parse becomes. */
  const ZeroTime := -62_135_596_800_000

  /** After a call at 2025-01-02T00:00:00Z, a call at an earlier time is denied. The earlier
      timestamp of this case carries no zone, so it does not parse and is the zero time. */
  method ClockSkewScenario() returns (decisions: seq<bool>)
    ensures decisions == [true, false]
  {
    var limiter := new TokenBucket(5.0, 1.0, 1.0);
    var a := limiter.AllowAt(T0 + 86_400_000);
    var b := limiter.AllowAt(ZeroTime);
    decisions := [a, b];
  }
}
