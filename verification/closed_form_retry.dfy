/** The older revision of the retry engine (tubthumper/_retry_factory.py): the
    backoff is computed in closed form from the retry count, and the attempt loop
    counts with `itertools.count()`.

    The clock and the random generator are inputs: `clock[0]` is the reading that
    fixes the deadline, `clock[k + 1]` the reading taken when deciding on the k-th
    caught exception (k = 0, 1, ...), and `draws[k]` what `random.random()` returns
    at that decision. The operation is the sequence of outcomes of its successive
    calls. */
module ClosedFormRetry {
  import opened RetryCore

  /** `_get_timeout`: the deadline fixed once per invocation. */
  function GetTimeout(timeLimit: ExtReal, now: real): (deadline: ExtReal)
    ensures deadline.Infinite? <==> timeLimit.Infinite?
    ensures deadline.Finite? ==> deadline.value - now == timeLimit.value
  {
    Plus(now, timeLimit)
  }

  /** `init_backoff * exponential ** retry_count`, before any jitter. */
  function UnjitteredBackoff<E>(config: RetryConfig<E>, retryCount: nat): real {
    config.initBackoff * Pow(config.exponential, retryCount)
  }

  /** The first retry uses `init_backoff` exactly; each further retry multiplies
      the un-jittered backoff by `exponential`. */
  lemma UnjitteredBackoffGrows<E>(config: RetryConfig<E>, retryCount: nat)
    ensures UnjitteredBackoff(config, 0) == config.initBackoff
    ensures UnjitteredBackoff(config, retryCount + 1) == UnjitteredBackoff(config, retryCount) * config.exponential
  {
    var p := Pow(config.exponential, retryCount);
    assert Pow(config.exponential, retryCount + 1) == config.exponential * p;
    assert config.initBackoff * (config.exponential * p) == (config.initBackoff * p) * config.exponential;
  }

  /** The backoff of retry `retryCount`, multiplied by the draw when jitter is on:
      without jitter it is the closed form itself; with jitter and a draw in [0, 1)
      it lies between 0 and a non-negative closed form. */
  function Backoff<E>(config: RetryConfig<E>, retryCount: nat, draw: real): (backoff: real)
    ensures !config.jitter ==> backoff == UnjitteredBackoff(config, retryCount)
    ensures config.jitter && 0.0 <= draw < 1.0 && UnjitteredBackoff(config, retryCount) >= 0.0 ==>
              0.0 <= backoff <= UnjitteredBackoff(config, retryCount)
  {
    var b := UnjitteredBackoff(config, retryCount);
    if !config.jitter then b
    else if 0.0 <= draw < 1.0 && b >= 0.0 then ScaleByUnit(b, draw); b * draw
    else b * draw
  }

  /** `_process_exception`: decide on the exception caught at retry count
      `retryCount`. The retry-count check comes first; only then is a backoff
      computed and checked against the deadline. The log call of the source is
      made by the caller when the result is `Sleep` (see `RetryFunc`). */
  function ProcessException<E>(config: RetryConfig<E>, exc: E, retryCount: nat, retryTimeout: ExtReal,
                               now: real, draw: real): (step: Step<E>)
    ensures AtLeast(retryCount as real, config.retryLimit) ==>
              step == Stop(Exhaustion(config, exc, RetryLimitReached(config.retryLimit)))
    ensures step.Sleep? <==>
              !AtLeast(retryCount as real, config.retryLimit) &&
              !Exceeds(now + Backoff(config, retryCount, draw), retryTimeout)
    ensures step.Sleep? ==> step.backoff == Backoff(config, retryCount, draw)
    ensures step.Sleep? ==> !Exceeds(now + step.backoff, retryTimeout)
    ensures step.Stop? && !AtLeast(retryCount as real, config.retryLimit) ==>
              step == Stop(Exhaustion(config, exc, TimeLimitExceeded(config.timeLimit)))
  {
    if AtLeast(retryCount as real, config.retryLimit) then
      Stop(Exhaustion(config, exc, RetryLimitReached(config.retryLimit)))
    else
      var backoff := Backoff(config, retryCount, draw);
      if Exceeds(now + backoff, retryTimeout) then
        Stop(Exhaustion(config, exc, TimeLimitExceeded(config.timeLimit)))
      else
        Sleep(backoff)
  }

  /** The rest of an invocation, from the call with retry count `k` on. */
  function RunFrom<V, E>(config: RetryConfig<E>, outcomes: seq<Outcome<V, E>>, clock: seq<real>,
                         draws: seq<real>, k: nat, timeout: ExtReal): (t: Trace<V, E>)
    requires RunInputs(outcomes, clock, draws) && k <= |outcomes|
    ensures k <= t.calls <= |outcomes|
    ensures t.exit.OutOfOutcomes? ==> t.calls == |outcomes|
    ensures |t.records| == |t.sleeps|
    ensures t.calls == k + |t.sleeps| + (if t.exit.OutOfOutcomes? then 0 else 1)
    decreases |outcomes| - k
  {
    if k == |outcomes| then Trace(OutOfOutcomes, k, [], [])
    else
      match outcomes[k]
      case Ok(v) => Trace(Returned(v), k + 1, [], [])
      case Err(e) =>
        if !config.exceptions(e) then Trace(Threw(Exc(e)), k + 1, [], [])
        else
          match ProcessException(config, e, k, timeout, clock[k + 1], draws[k])
          case Stop(r) => Trace(Threw(r), k + 1, [], [])
          case Sleep(b) =>
            Prepend([b], [RetryRecord(config, k + 1, b, e)],
                    RunFrom(config, outcomes, clock, draws, k + 1, timeout))
  }

  /** One invocation of the wrapped function. */
  function Run<V, E>(config: RetryConfig<E>, outcomes: seq<Outcome<V, E>>, clock: seq<real>,
                     draws: seq<real>): (t: Trace<V, E>)
    requires RunInputs(outcomes, clock, draws)
    ensures |outcomes| > 0 ==> 1 <= t.calls <= |outcomes|
    ensures t.exit.OutOfOutcomes? ==> t.calls == |outcomes| == |t.sleeps|
    ensures !t.exit.OutOfOutcomes? ==> t.calls == |t.sleeps| + 1 == |t.records| + 1
  {
    RunFrom(config, outcomes, clock, draws, 0, GetTimeout(config.timeLimit, clock[0]))
  }

  /** The `retry_func` closure returned by `retry_factory`: the operation, now a
      function of its call arguments, and the configuration. */
  datatype Wrapped<!A, V, !E> = Wrapped(func: CallArgs<A> -> seq<Outcome<V, E>>, config: RetryConfig<E>) {
    /** Calling the wrapped function with `args`: every attempt calls the operation
        with those same arguments. What ends the invocation comes from its last
        call: the value it returned, or the exception it raised (propagated,
        re-raised, or the cause of the `RetryError`). */
    function Call(args: CallArgs<A>, clock: seq<real>, draws: seq<real>): (t: Trace<V, E>)
      requires RunInputs(func(args), clock, draws)
      ensures t.calls <= |func(args)|
      ensures t.exit.Returned? ==> t.calls >= 1 && func(args)[t.calls - 1] == Ok(t.exit.value)
      ensures t.exit.Threw? && t.exit.raised.Exc? ==> t.calls >= 1 && func(args)[t.calls - 1] == Err(t.exit.raised.exc)
      ensures t.exit.Threw? && t.exit.raised.RetryError? ==>
                t.calls >= 1 && func(args)[t.calls - 1] == Err(t.exit.raised.cause)
    {
      var outcomes := func(args);
      EndsAtLastCall(config, outcomes, clock, draws, 0, GetTimeout(config.timeLimit, clock[0]));
      Run(config, outcomes, clock, draws)
    }
  }

  /** `retry_factory`: wrap `func` with retry logic. */
  function RetryFactory<A, V, E>(func: CallArgs<A> -> seq<Outcome<V, E>>, config: RetryConfig<E>): (w: Wrapped<A, V, E>)
    ensures w.func == func && w.config == config
  {
    Wrapped(func, config)
  }

  /** The attempt loop of `retry_func` (sync and async alike): call the operation,
      return its value, let an exception outside `exceptions` escape, otherwise
      ask `ProcessException`, log the retry and sleep. */
  method RetryFunc<V, E>(config: RetryConfig<E>, outcomes: seq<Outcome<V, E>>, clock: seq<real>,
                         draws: seq<real>) returns (t: Trace<V, E>)
    requires RunInputs(outcomes, clock, draws)
    modifies config.logger
    ensures t == Run(config, outcomes, clock, draws)
    ensures config.logger.records == old(config.logger.records) + t.records
  {
    var retryTimeout := GetTimeout(config.timeLimit, clock[0]);
    ghost var goal := RunFrom(config, outcomes, clock, draws, 0, retryTimeout);
    var sleeps: seq<real> := [];
    var records: seq<LogRecord<E>> := [];
    var retryCount := 0;
    while retryCount < |outcomes|
      invariant retryCount <= |outcomes|
      invariant goal == Prepend(sleeps, records, RunFrom(config, outcomes, clock, draws, retryCount, retryTimeout))
      invariant config.logger.records == old(config.logger.records) + records
    {
      match outcomes[retryCount]
      case Ok(v) =>
        return Trace(Returned(v), retryCount + 1, sleeps, records);
      case Err(exc) =>
        if !config.exceptions(exc) {
          return Trace(Threw(Exc(exc)), retryCount + 1, sleeps, records);
        }
        var step := ProcessException(config, exc, retryCount, retryTimeout, clock[retryCount + 1], draws[retryCount]);
        match step
        case Stop(r) =>
          return Trace(Threw(r), retryCount + 1, sleeps, records);
        case Sleep(backoff) =>
          var record := RetryRecord(config, retryCount + 1, backoff, exc);
          PrependTwice(sleeps, records, [backoff], [record],
                       RunFrom(config, outcomes, clock, draws, retryCount + 1, retryTimeout));
          config.logger.Log(record);
          sleeps, records := sleeps + [backoff], records + [record];
          retryCount := retryCount + 1;
    }
    t := Trace(OutOfOutcomes, retryCount, sleeps, records);
  }

  // ---------------------------------------------------------------------------
  // Properties of one invocation

  /** Every retry taken, the i-th counting from call `k`, answers a caught
      exception within the retry limit; it sleeps the closed-form backoff, the
      retry starts no later than the deadline, and exactly one record is logged for
      it, with try number = retry count + 1. */
  lemma {:induction false} RetriesTaken<V, E>(config: RetryConfig<E>, outcomes: seq<Outcome<V, E>>, clock: seq<real>,
                                                draws: seq<real>, k: nat, timeout: ExtReal, i: nat)
    requires RunInputs(outcomes, clock, draws) && k <= |outcomes|
    requires i < |RunFrom(config, outcomes, clock, draws, k, timeout).sleeps|
    ensures var t := RunFrom(config, outcomes, clock, draws, k, timeout);
            var j := k + i;
            && j < |outcomes| && outcomes[j].Err? && config.exceptions(outcomes[j].exc)
            && !AtLeast(j as real, config.retryLimit)
            && t.sleeps[i] == Backoff(config, j, draws[j])
            && !Exceeds(clock[j + 1] + t.sleeps[i], timeout)
            && t.records[i] == RetryRecord(config, j + 1, t.sleeps[i], outcomes[j].exc)
    decreases i
  {
    var t := RunFrom(config, outcomes, clock, draws, k, timeout);
    assert k < |outcomes|;
    var e := outcomes[k].exc;
    var step := ProcessException(config, e, k, timeout, clock[k + 1], draws[k]);
    assert outcomes[k].Err? && config.exceptions(e) && step.Sleep?;
    var rest := RunFrom(config, outcomes, clock, draws, k + 1, timeout);
    assert t == Prepend([step.backoff], [RetryRecord(config, k + 1, step.backoff, e)], rest);
    if i > 0 {
      RetriesTaken(config, outcomes, clock, draws, k + 1, timeout, i - 1);
      assert t.sleeps[i] == rest.sleeps[i - 1] && t.records[i] == rest.records[i - 1];
    }
  }

  /** How an invocation ends: at its last call, on a success (whose value is
      returned), on an exception outside `exceptions` (raised unchanged), or on a
      caught exception that `ProcessException` refuses to retry (raised as it
      decides); otherwise the outcomes ran out. */
  lemma {:induction false} EndsAtLastCall<V, E>(config: RetryConfig<E>, outcomes: seq<Outcome<V, E>>, clock: seq<real>,
                                                 draws: seq<real>, k: nat, timeout: ExtReal)
    requires RunInputs(outcomes, clock, draws) && k <= |outcomes|
    ensures var t := RunFrom(config, outcomes, clock, draws, k, timeout);
            && (t.exit.OutOfOutcomes? ==> t.calls == |outcomes|)
            && (!t.exit.OutOfOutcomes? ==>
                  var n := t.calls - 1;
                  match outcomes[n]
                  case Ok(v) => t.exit == Returned(v)
                  case Err(e) =>
                    if !config.exceptions(e) then t.exit == Threw(Exc(e))
                    else
                      var step := ProcessException(config, e, n, timeout, clock[n + 1], draws[n]);
                      step.Stop? && t.exit == Threw(step.raised))
    decreases |outcomes| - k
  {
    if k < |outcomes| && outcomes[k].Err? && config.exceptions(outcomes[k].exc) {
      var step := ProcessException(config, outcomes[k].exc, k, timeout, clock[k + 1], draws[k]);
      if step.Sleep? {
        EndsAtLastCall(config, outcomes, clock, draws, k + 1, timeout);
      }
    }
  }

  /** With `retry_limit = N`, an invocation calls the operation at most N + 1
      times and sleeps at most N times. */
  lemma RetryLimitBoundsCalls<V, E>(config: RetryConfig<E>, outcomes: seq<Outcome<V, E>>, clock: seq<real>,
                                    draws: seq<real>, n: nat)
    requires RunInputs(outcomes, clock, draws)
    requires config.retryLimit == Finite(n as real)
    ensures Run(config, outcomes, clock, draws).calls <= n + 1
    ensures |Run(config, outcomes, clock, draws).sleeps| <= n
  {
    var t := Run(config, outcomes, clock, draws);
    var m := |t.sleeps|;
    if m > 0 {
      RetriesTaken(config, outcomes, clock, draws, 0, GetTimeout(config.timeLimit, clock[0]), m - 1);
    }
  }

  /** Calls `k` to `j - 1` fail with caught exceptions, the retry limit allows
      them all, and each retry's backoff ends within the deadline: the invocation
      from `k` retries each of them, then goes on as from `j`. */
  lemma {:induction false} RetriesUntil<V, E>(config: RetryConfig<E>, outcomes: seq<Outcome<V, E>>, clock: seq<real>,
                                               draws: seq<real>, timeout: ExtReal, k: nat, j: nat)
    requires RunInputs(outcomes, clock, draws) && k <= j <= |outcomes|
    requires forall i :: k <= i < j ==> outcomes[i].Err? && config.exceptions(outcomes[i].exc)
    requires k < j ==> !AtLeast((j - 1) as real, config.retryLimit)
    requires forall i :: k <= i < j ==> !Exceeds(clock[i + 1] + Backoff(config, i, draws[i]), timeout)
    ensures var t := RunFrom(config, outcomes, clock, draws, k, timeout);
            var u := RunFrom(config, outcomes, clock, draws, j, timeout);
            t.exit == u.exit && t.calls == u.calls && |t.sleeps| == |u.sleeps| + (j - k)
    decreases j - k
  {
    if k < j {
      assert !AtLeast(k as real, config.retryLimit);
      RetriesUntil(config, outcomes, clock, draws, timeout, k + 1, j);
    }
  }

  /** The first success is returned at once: if calls 0 to j - 1 fail with
      caught exceptions, the retry limit allows j retries, each of their backoffs
      ends within the deadline, and call j returns v, the invocation returns v
      after j + 1 calls and j sleeps. */
  lemma FirstSuccessReturned<V, E>(config: RetryConfig<E>, outcomes: seq<Outcome<V, E>>, clock: seq<real>,
                                   draws: seq<real>, j: nat, v: V)
    requires RunInputs(outcomes, clock, draws) && j < |outcomes|
    requires forall i :: 0 <= i < j ==> outcomes[i].Err? && config.exceptions(outcomes[i].exc)
    requires outcomes[j] == Ok(v)
    requires j > 0 ==> !AtLeast((j - 1) as real, config.retryLimit)
    requires forall i :: 0 <= i < j ==>
               !Exceeds(clock[i + 1] + Backoff(config, i, draws[i]), GetTimeout(config.timeLimit, clock[0]))
    ensures var t := Run(config, outcomes, clock, draws);
            t.exit == Returned(v) && t.calls == j + 1 && |t.sleeps| == j
  {
    RetriesUntil(config, outcomes, clock, draws, GetTimeout(config.timeLimit, clock[0]), 0, j);
  }

  /** An exception outside `exceptions` escapes unchanged: after j retries taken
      within both limits, the operation was called j + 1 times, and nothing is logged
      or slept for the exception that escapes. */
  lemma NonRetryablePropagated<V, E>(config: RetryConfig<E>, outcomes: seq<Outcome<V, E>>, clock: seq<real>,
                                     draws: seq<real>, j: nat, e: E)
    requires RunInputs(outcomes, clock, draws) && j < |outcomes|
    requires forall i :: 0 <= i < j ==> outcomes[i].Err? && config.exceptions(outcomes[i].exc)
    requires outcomes[j] == Err(e) && !config.exceptions(e)
    requires j > 0 ==> !AtLeast((j - 1) as real, config.retryLimit)
    requires forall i :: 0 <= i < j ==>
               !Exceeds(clock[i + 1] + Backoff(config, i, draws[i]), GetTimeout(config.timeLimit, clock[0]))
    ensures var t := Run(config, outcomes, clock, draws);
            t.exit == Threw(Exc(e)) && t.calls == j + 1 && |t.sleeps| == j && |t.records| == j
  {
    RetriesUntil(config, outcomes, clock, draws, GetTimeout(config.timeLimit, clock[0]), 0, j);
  }

  /** Retry-limit exhaustion: with `retry_limit = N`, no time limit, and an
      operation that always fails with a caught exception, the operation is called
      exactly N + 1 times, N sleeps happen, and the exception of the last call is
      re-raised (`reraise`) or chained to a `RetryError` naming the retry limit. */
  lemma RetryLimitExhausted<V, E>(config: RetryConfig<E>, outcomes: seq<Outcome<V, E>>, clock: seq<real>,
                                  draws: seq<real>, n: nat)
    requires RunInputs(outcomes, clock, draws) && |outcomes| > n
    requires forall i :: 0 <= i < |outcomes| ==> outcomes[i].Err? && config.exceptions(outcomes[i].exc)
    requires config.retryLimit == Finite(n as real) && config.timeLimit == Infinite
    ensures var t := Run(config, outcomes, clock, draws);
            && t.calls == n + 1 && |t.sleeps| == n
            && t.exit == Threw(Exhaustion(config, outcomes[n].exc, RetryLimitReached(Finite(n as real))))
  {
    RetriesUntil(config, outcomes, clock, draws, Infinite, 0, n);
  }

  /** `retry_limit = 0` calls the operation exactly once. */
  lemma RetryLimitZeroCallsOnce<V, E>(config: RetryConfig<E>, outcomes: seq<Outcome<V, E>>, clock: seq<real>,
                                      draws: seq<real>)
    requires RunInputs(outcomes, clock, draws) && |outcomes| > 0
    requires config.retryLimit == Finite(0.0)
    ensures Run(config, outcomes, clock, draws).calls == 1
    ensures Run(config, outcomes, clock, draws).sleeps == []
  {
    RetryLimitBoundsCalls(config, outcomes, clock, draws, 0);
  }

  /** `time_limit = 0` with a positive initial backoff: the first caught exception
      ends the invocation after one call and no sleep, unless the jitter draw is
      exactly 0. The retry-limit check comes first, so with `retry_limit = 0` too
      the retry limit is the reason given. */
  lemma ZeroTimeLimitStopsAtFirstFailure<V, E>(config: RetryConfig<E>, outcomes: seq<Outcome<V, E>>, clock: seq<real>,
                                               draws: seq<real>, e: E)
    requires RunInputs(outcomes, clock, draws) && |outcomes| > 0 && NonDecreasing(clock)
    requires outcomes[0] == Err(e) && config.exceptions(e)
    requires config.timeLimit == Finite(0.0) && config.initBackoff > 0.0
    requires config.jitter ==> draws[0] > 0.0
    ensures var t := Run(config, outcomes, clock, draws);
            && t.calls == 1 && t.sleeps == [] && t.records == []
            && t.exit == Threw(Exhaustion(config, e,
                 if AtLeast(0.0, config.retryLimit) then RetryLimitReached(config.retryLimit)
                 else TimeLimitExceeded(Finite(0.0))))
  {
    var b := Backoff(config, 0, draws[0]);
    assert b > 0.0 by {
      assert Pow(config.exponential, 0) == 1.0;
      if config.jitter {
        assert b == config.initBackoff * draws[0];
      }
    }
    assert clock[1] + b > clock[0] + 0.0;
  }

  /** The un-jittered backoff is non-negative when the parameters are. */
  lemma UnjitteredBackoffNonNegative<E>(config: RetryConfig<E>, k: nat)
    requires config.initBackoff >= 0.0 && config.exponential > 0.0
    ensures UnjitteredBackoff(config, k) >= 0.0
    ensures config.initBackoff > 0.0 ==> UnjitteredBackoff(config, k) > 0.0
  {
    PowPositive(config.exponential, k);
    var p := Pow(config.exponential, k);
    assert config.initBackoff * p >= 0.0 * p;
  }

  /** Without jitter the k-th retry sleeps exactly `init_backoff * exponential ** k`;
      with jitter, for a draw in [0, 1), the sleep lies in [0, that value], and
      strictly below it when `init_backoff` is positive. */
  lemma BackoffBounds<E>(config: RetryConfig<E>, k: nat, draw: real)
    requires config.initBackoff >= 0.0 && config.exponential > 0.0 && 0.0 <= draw < 1.0
    ensures !config.jitter ==> Backoff(config, k, draw) == UnjitteredBackoff(config, k)
    ensures 0.0 <= Backoff(config, k, draw) <= UnjitteredBackoff(config, k)
    ensures config.jitter ==> Backoff(config, k, draw) == UnjitteredBackoff(config, k) * draw
    ensures config.jitter && config.initBackoff > 0.0 ==> Backoff(config, k, draw) < UnjitteredBackoff(config, k)
  {
    UnjitteredBackoffNonNegative(config, k);
    var u := UnjitteredBackoff(config, k);
    if config.jitter {
      assert Backoff(config, k, draw) == u * draw;
      if config.initBackoff > 0.0 {
        ScaleByUnit(u, draw);
      }
    }
  }

  /** Every sleep of an invocation is the closed-form backoff of its retry, within
      the jitter bounds. */
  lemma SleepsAreBackoffs<V, E>(config: RetryConfig<E>, outcomes: seq<Outcome<V, E>>, clock: seq<real>,
                                draws: seq<real>, i: nat)
    requires RunInputs(outcomes, clock, draws) && UnitDraws(draws)
    requires config.initBackoff >= 0.0 && config.exponential > 0.0
    requires i < |Run(config, outcomes, clock, draws).sleeps|
    ensures var s := Run(config, outcomes, clock, draws).sleeps[i];
            && (!config.jitter ==> s == UnjitteredBackoff(config, i))
            && (config.jitter ==> s == UnjitteredBackoff(config, i) * draws[i])
            && 0.0 <= s <= UnjitteredBackoff(config, i)
  {
    SleepIsBackoff(config, outcomes, clock, draws, i);
    BackoffBounds(config, i, draws[i]);
  }

  /** The i-th sleep of an invocation is the backoff of retry count i. */
  lemma SleepIsBackoff<V, E>(config: RetryConfig<E>, outcomes: seq<Outcome<V, E>>, clock: seq<real>,
                             draws: seq<real>, i: nat)
    requires RunInputs(outcomes, clock, draws)
    requires i < |Run(config, outcomes, clock, draws).sleeps|
    ensures i < |draws| && Run(config, outcomes, clock, draws).sleeps[i] == Backoff(config, i, draws[i])
  {
    RetriesTaken(config, outcomes, clock, draws, 0, GetTimeout(config.timeLimit, clock[0]), i);
  }

  /** No retry is scheduled past the deadline: for every retry taken, the clock
      reading at the decision plus the backoff is at most start + time limit. */
  lemma DeadlineRespected<V, E>(config: RetryConfig<E>, outcomes: seq<Outcome<V, E>>, clock: seq<real>,
                                draws: seq<real>, i: nat)
    requires RunInputs(outcomes, clock, draws)
    requires config.timeLimit.Finite?
    requires i < |Run(config, outcomes, clock, draws).sleeps|
    ensures clock[i + 1] + Run(config, outcomes, clock, draws).sleeps[i] <= clock[0] + config.timeLimit.value
  {
    RetriesTaken(config, outcomes, clock, draws, 0, GetTimeout(config.timeLimit, clock[0]), i);
  }
}
