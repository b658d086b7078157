/** Values shared by both revisions of tubthumper's retry engine: the frozen
    configuration record, what one call of the wrapped operation can do, what the
    engine raises when it gives up, the log records it emits, and the trace of one
    invocation of a wrapped function.

    Python floats are modelled as `real`; `float("inf")`, the default of both
    limits, is `Infinite`. */
module RetryCore {

  /** A real number or positive infinity (Python's float("inf")). */
  datatype ExtReal = Finite(value: real) | Infinite

  /** `x + d`; adding infinity gives infinity. */
  function Plus(x: real, d: ExtReal): (r: ExtReal)
    ensures r.Infinite? <==> d.Infinite?
    ensures r.Finite? ==> r.value - x == d.value
  {
    if d.Infinite? then Infinite else Finite(x + d.value)
  }

  /** `x > bound`: nothing exceeds infinity. */
  predicate Exceeds(x: real, bound: ExtReal) {
    bound.Finite? && x > bound.value
  }

  /** `x >= bound`: nothing reaches infinity. */
  predicate AtLeast(x: real, bound: ExtReal) {
    bound.Finite? && x >= bound.value
  }

  /** A limit holding a whole number, or infinity. */
  predicate IsWhole(b: ExtReal) {
    b.Infinite? || b.value == b.value.Floor as real
  }

  datatype Option<T> = None | Some(value: T) {
    function GetOr(default: T): T {
      match this
      case Some(v) => v
      case None => default
    }
  }

  /** Positional and keyword arguments of one call (`*args, **kwargs`). */
  datatype CallArgs<A> = CallArgs(positional: seq<A>, keyword: map<string, A>)

  /** What one call of the wrapped operation does: return a value or raise. */
  datatype Outcome<V, E> = Ok(value: V) | Err(exc: E)

  /** Which limit stopped the retries, with the configured limit that the
      `RetryError` message quotes. */
  datatype LimitReason = RetryLimitReached(retryLimit: ExtReal) | TimeLimitExceeded(timeLimit: ExtReal)

  /** What the engine lets propagate: an exception of the operation, unchanged,
      or a `RetryError` chained (`raise ... from`) to the last caught exception. */
  datatype Raised<E> = Exc(exc: E) | RetryError(reason: LimitReason, cause: E)

  /** One `logger.log(level, msg, exc_info=True)` call: the message states the try
      number and the backoff, and `exc_info` attaches the caught exception. */
  datatype LogRecord<E> = LogRecord(level: int, tryNumber: nat, backoff: real, exc: E)

  /** The logger object of a configuration; it keeps every record it is given. */
  class Logger<E> {
    var records: seq<LogRecord<E>>

    constructor ()
      ensures records == []
    {
      records := [];
    }

    method Log(record: LogRecord<E>)
      modifies this
      ensures records == old(records) + [record]
    {
      records := records + [record];
    }
  }

  /** The frozen `RetryConfig` dataclass. `exceptions` is the tuple of exception
      classes caught, abstracted to the predicate "is caught by the except clause". */
  datatype RetryConfig<!E> = RetryConfig(
    exceptions: E -> bool,
    retryLimit: ExtReal,
    timeLimit: ExtReal,
    initBackoff: real,
    exponential: real,
    jitter: bool,
    reraise: bool,
    logLevel: int,
    logger: Logger<E>)

  /** The decision taken on a caught exception: sleep and call again, or raise. */
  datatype Step<E> = Sleep(backoff: real) | Stop(raised: Raised<E>)

  /** How one invocation of the wrapped function ends. `OutOfOutcomes` is not a
      behaviour of the engine: it says that the finite sequence of outcomes given
      to the model ran out while the engine was about to call the operation again. */
  datatype Exit<V, E> = Returned(value: V) | Threw(raised: Raised<E>) | OutOfOutcomes

  /** The observable record of one invocation: how it ended, how many times the
      operation was called, the durations slept, and the records logged. */
  datatype Trace<V, E> = Trace(exit: Exit<V, E>, calls: nat, sleeps: seq<real>, records: seq<LogRecord<E>>)

  /** The trace `t` preceded by some retries already taken. */
  function Prepend<V, E>(sleeps: seq<real>, records: seq<LogRecord<E>>, t: Trace<V, E>): (r: Trace<V, E>)
    ensures r.exit == t.exit && r.calls == t.calls
    ensures |r.sleeps| == |sleeps| + |t.sleeps| && |r.records| == |records| + |t.records|
  {
    t.(sleeps := sleeps + t.sleeps, records := records + t.records)
  }

  lemma PrependTwice<V, E>(s1: seq<real>, r1: seq<LogRecord<E>>, s2: seq<real>, r2: seq<LogRecord<E>>, t: Trace<V, E>)
    ensures Prepend(s1, r1, Prepend(s2, r2, t)) == Prepend(s1 + s2, r1 + r2, t)
  {
    assert s1 + (s2 + t.sleeps) == (s1 + s2) + t.sleeps;
    assert r1 + (r2 + t.records) == (r1 + r2) + t.records;
  }

  /** What is raised on exhaustion: the caught exception itself under `reraise`,
      otherwise a `RetryError` chained from it. */
  function Exhaustion<E>(config: RetryConfig<E>, exc: E, reason: LimitReason): (r: Raised<E>)
    ensures r.Exc? <==> config.reraise
    ensures r.Exc? ==> r.exc == exc
    ensures r.RetryError? ==> r.cause == exc && r.reason == reason
  {
    if config.reraise then Exc(exc) else RetryError(reason, exc)
  }

  /** The record logged for a retry: configured level, try number, backoff, exception. */
  function RetryRecord<E>(config: RetryConfig<E>, tryNumber: nat, backoff: real, exc: E): LogRecord<E> {
    LogRecord(config.logLevel, tryNumber, backoff, exc)
  }

  /** `x ** n` for a whole exponent. */
  function Pow(x: real, n: nat): real {
    if n == 0 then 1.0 else x * Pow(x, n - 1)
  }

  lemma {:induction false} PowPositive(x: real, n: nat)
    requires x > 0.0
    ensures Pow(x, n) > 0.0
  {
    if n > 0 {
      PowPositive(x, n - 1);
    }
  }

  /** Scaling a non-negative amount by a factor in [0, 1) does not increase it. */
  lemma ScaleByUnit(u: real, d: real)
    requires u >= 0.0 && 0.0 <= d < 1.0
    ensures 0.0 <= u * d <= u
    ensures u > 0.0 ==> u * d < u
  {
    assert u - u * d == u * (1.0 - d);
  }

  /** Clock readings never go backwards (`time.perf_counter` is monotonic). */
  predicate NonDecreasing(clock: seq<real>) {
    forall i, j :: 0 <= i <= j < |clock| ==> clock[i] <= clock[j]
  }

  /** `random.random()` draws lie in [0, 1). */
  predicate UnitDraws(draws: seq<real>) {
    forall i :: 0 <= i < |draws| ==> 0.0 <= draws[i] < 1.0
  }

  /** The model's inputs for one invocation: one clock reading at start and one per
      retry decision, and one random draw per retry decision. */
  predicate RunInputs<V, E>(outcomes: seq<Outcome<V, E>>, clock: seq<real>, draws: seq<real>) {
    |clock| > |outcomes| && |draws| >= |outcomes|
  }
}
