/**
 * internal/engine/engine.go: the engine names, the mapping from a configured string to an
 * engine kind, and `EngineFactory`, which builds the engine a configuration names. The
 * functional options that fill a `Config` are replaced by a plain record.
 */
module Engines {
  import opened Wrappers
  import RingBuffers
  import FixedSizeWindows
  import SlidingWindowLogs
  import TokenBuckets
  import LeakyBuckets

  /** Go's `EngineType` is a string type; the empty string stands for "no engine". */
  type EngineType = string

  const FixedWindow: EngineType := "fixed-window"
  const SlidingWindowLog: EngineType := "sliding-window-log"
  const SlidingWindowCounter: EngineType := "sliding-window-counter"
  const TokenBucket: EngineType := "token-bucket"
  const LeakyBucket: EngineType := "leaky-bucket"

  /** The five engine names. */
  const Kinds: set<EngineType> := {FixedWindow, SlidingWindowLog, SlidingWindowCounter, TokenBucket, LeakyBucket}

  const ErrInvalidEngineType := "invalid rate-limiter engine type"

  /** `StringToEngineType`: a known name maps to the engine kind of the same text, anything else
      to the empty kind. */
  function StringToEngineType(s: string): (k: EngineType)
    ensures s in Kinds ==> k == s
    ensures s !in Kinds ==> k == ""
  {
    if s == "fixed-window" then FixedWindow
    else if s == "sliding-window-log" then SlidingWindowLog
    else if s == "sliding-window-counter" then SlidingWindowCounter
    else if s == "token-bucket" then TokenBucket
    else if s == "leaky-bucket" then LeakyBucket
    else ""
  }

  /** Mapping a string twice gives what mapping it once gives, and the result is either a known
      kind or the empty kind, which is not one. */
  lemma StringToEngineTypeIdempotent(s: string)
    ensures StringToEngineType(StringToEngineType(s)) == StringToEngineType(s)
    ensures StringToEngineType(s) in Kinds <==> s in Kinds
  {
    assert "" !in Kinds;
  }

  /** The factory's settings. `capacity` is the calls or tokens an engine holds, `windowSize`
      the window of the two window engines, `fillRate` and `consumeRate` the token bucket's
      rates and `leakRate` the leaky bucket's drain period. */
  datatype Config = Config(
    engineType: EngineType,
    capacity: nat,
    windowSize: int,
    fillRate: real,
    consumeRate: real,
    leakRate: int)

  /** What `EngineFactory` does for a configuration: build an engine of a kind, return no engine
      and no error, return an error, or panic in the engine's constructor. */
  datatype Plan = Construct(kind: EngineType) | ReturnNil | ReturnError(error: string) | Panic(message: string)

  /** The panic, if any, of the constructor that `kind` selects. */
  function ConstructorPanic(config: Config): (panic: Option<string>)
  {
    if config.engineType == FixedWindow then FixedSizeWindows.CheckWindowSize(config.windowSize)
    else if config.engineType == SlidingWindowLog then SlidingWindowLogs.CheckWindowSize(config.windowSize)
    else if config.engineType == TokenBucket then
      TokenBuckets.CheckRates(config.capacity as real, config.fillRate, config.consumeRate)
    else if config.engineType == LeakyBucket then LeakyBuckets.CheckParams(config.capacity, config.leakRate)
    else None
  }

  /** The dispatch of `EngineFactory`. */
  function Dispatch(config: Config): (p: Plan)
    // an error exactly when the configured kind is not one of the five names, "" included
    ensures p.ReturnError? <==> config.engineType !in Kinds
    ensures p.ReturnError? ==> p.error == ErrInvalidEngineType
    // the sliding-window counter is never built: no engine and no error
    ensures p.ReturnNil? <==> config.engineType == SlidingWindowCounter
    // every other kind is built as configured, unless its constructor panics
    ensures p.Construct? ==> p.kind == config.engineType
    ensures p.Construct? <==> (config.engineType in Kinds - {SlidingWindowCounter} && ConstructorPanic(config).None?)
    ensures p.Panic? ==> config.engineType in Kinds - {SlidingWindowCounter} && ConstructorPanic(config) == Some(p.message)
  {
    if config.engineType !in Kinds then ReturnError(ErrInvalidEngineType)
    else if config.engineType == SlidingWindowCounter then ReturnNil
    else
      var panic := ConstructorPanic(config);
      if panic.Some? then Panic(panic.value) else Construct(config.engineType)
  }

  /** A configuration whose kind came from `StringToEngineType` fails with an error exactly when
      the string is not one of the five names. */
  lemma ParsedKindDispatch(s: string, config: Config)
    requires config.engineType == StringToEngineType(s)
    ensures Dispatch(config).ReturnError? <==> s !in Kinds
    ensures Dispatch(config).ReturnError? ==> config.engineType == ""
  {
    StringToEngineTypeIdempotent(s);
  }

  /** A built engine. */
  datatype Engine =
    | Fixed(fixed: FixedSizeWindows.FixedSizeWindow)
    | Log(log: SlidingWindowLogs.SlidingWindowLog)
    | Tokens(tokens: TokenBuckets.TokenBucket)
    | Leaky(leaky: LeakyBuckets.LeakyBucket)

  /** What `EngineFactory` does: returns an engine and an error, either possibly nil, or panics. */
  datatype Outcome = Returned(engine: Option<Engine>, err: Option<string>) | Panicked(message: string)

  /** `EngineFactory`: builds the engine `config` names, as `Dispatch` says. The leaky bucket is
      built without starting its drain goroutine. */
  method EngineFactory(config: Config) returns (r: Outcome)
    // only the two engines that keep a ring buffer need its `capacity + 1` slots to fit a `uint64`
    requires config.engineType == SlidingWindowLog || config.engineType == LeakyBucket ==> config.capacity + 1 < RingBuffers.U64
    ensures Dispatch(config) == ReturnError(ErrInvalidEngineType) ==> r == Returned(None, Some(ErrInvalidEngineType))
    ensures Dispatch(config) == ReturnNil ==> r == Returned(None, None)
    ensures Dispatch(config).Panic? ==> r == Panicked(Dispatch(config).message)
    ensures Dispatch(config).Construct? ==> r.Returned? && r.err.None? && r.engine.Some?
    ensures Dispatch(config) == Construct(FixedWindow) ==>
              && r.engine.value.Fixed?
              && var e := r.engine.value.fixed;
              && fresh(e) && e.Valid() && e.State() == FixedSizeWindows.Window(0, 0)
              && e.capacity == config.capacity && e.windowSize == config.windowSize
    ensures Dispatch(config) == Construct(SlidingWindowLog) ==>
              && r.engine.value.Log?
              && var e := r.engine.value.log;
              && fresh(e) && e.Valid() && e.Log() == []
              && e.capacity == config.capacity && e.windowSize == config.windowSize
    ensures Dispatch(config) == Construct(TokenBucket) ==>
              && r.engine.value.Tokens?
              && var e := r.engine.value.tokens;
              && fresh(e) && e.Valid() && e.state == TokenBuckets.Initial(config.capacity as real)
              && e.capacity == config.capacity as real
              && e.fillRate == config.fillRate && e.consumeRate == config.consumeRate
    ensures Dispatch(config) == Construct(LeakyBucket) ==>
              && r.engine.value.Leaky?
              && var e := r.engine.value.leaky;
              && fresh(e) && e.Valid() && e.Queue() == []
              && e.capacity == config.capacity && e.drainRate == config.leakRate
  {
    var kind := config.engineType;
    if kind == FixedWindow {
      var panic := FixedSizeWindows.CheckWindowSize(config.windowSize);
      if panic.Some? {
        return Panicked(panic.value);
      }
      var e := new FixedSizeWindows.FixedSizeWindow(config.capacity, config.windowSize);
      return Returned(Some(Fixed(e)), None);
    } else if kind == SlidingWindowLog {
      var panic := SlidingWindowLogs.CheckWindowSize(config.windowSize);
      if panic.Some? {
        return Panicked(panic.value);
      }
      var e := new SlidingWindowLogs.SlidingWindowLog(config.capacity, config.windowSize);
      return Returned(Some(Log(e)), None);
    } else if kind == SlidingWindowCounter {
      return Returned(None, None);
    } else if kind == TokenBucket {
      var panic := TokenBuckets.CheckRates(config.capacity as real, config.fillRate, config.consumeRate);
      if panic.Some? {
        return Panicked(panic.value);
      }
      var e := new TokenBuckets.TokenBucket(config.capacity as real, config.fillRate, config.consumeRate);
      return Returned(Some(Tokens(e)), None);
    } else if kind == LeakyBucket {
      var panic := LeakyBuckets.CheckParams(config.capacity, config.leakRate);
      if panic.Some? {
        return Panicked(panic.value);
      }
      var e := new LeakyBuckets.LeakyBucket(config.capacity, config.leakRate);
      return Returned(Some(Leaky(e)), None);
    }
    return Returned(None, Some(ErrInvalidEngineType));
  }
}
