# tubthumper retry engine in Dafny

tubthumper wraps a Python callable with retry logic. An invocation calls the
operation repeatedly until one of four things happens:

- it returns, and its value is returned;
- it raises an exception outside the configured `exceptions`, which propagates unchanged;
- the retry limit is reached;
- the next backoff would end after the time limit.

When a limit stops it, the engine raises `RetryError` chained from the last caught
exception, or re-raises that exception itself under `reraise`. Between calls it
sleeps `init_backoff * exponential ** k`. With `jitter` on, that value is multiplied
by a `random.random()` draw. Each retry is logged once.

The model covers two revisions of the engine and the public entry points:

- `retry_core.dfy` (`RetryCore`) holds what both revisions share:
  - the frozen `RetryConfig`;
  - limits that may be `float("inf")` (`ExtReal`);
  - what propagates (`Raised`: the exception itself, or `RetryError` with its cause);
  - the log records, and a `Logger` object that accumulates them;
  - the `Trace` of one invocation: how it ends, how many calls, the sleeps and the records.
- `closed_form_retry.dfy` (`ClosedFormRetry`) is the older revision, `tubthumper/_retry_factory.py`:
  - `_get_timeout` and `_process_exception` are functions;
  - a whole invocation is the function `Run`;
  - the `itertools.count()` attempt loop is the method `RetryFunc`, proved to produce `Run` and to log its records;
  - lemmas cover success, propagation, both exhaustions, the backoff formula and its jitter bounds, the deadline and the try numbers in the log.
- `stateful_retry.dfy` (`StatefulRetry`) is the current revision, `src/tubthumper/_retry_factory.py`:
  - `_RetryHandler` is a class with the fields `count`, `unjitteredBackoff`, `backoff` and `timeout`;
  - its methods are proved against specification functions on the handler state;
  - the `retry_func` closure is a class that owns one handler for all of its invocations;
  - its `while True` loop is the method `Call`, proved to produce `StatefulInvocation` and to log its records.
- `revision_agreement.dfy` (`RevisionAgreement`) relates the two revisions:
  - for any whole-number retry limit, or none, the handler decides every caught exception as `_process_exception` does at the same retry count, with the same backoff;
  - so every invocation has the same trace in both revisions, over exact reals, whatever state earlier, completed invocations left in the shared handler;
  - for a fractional retry limit they differ, and a lemma exhibits the difference.
- `interfaces.dfy` (`Interfaces`) covers `tubthumper/_interfaces.py`: the default constants, and `retry`, `retry_decorator` and `retry_factory`, which build one configuration with those defaults.

Inputs the Python code takes from its environment are parameters:

- the operation is a sequence of outcomes (`Ok(v)` or `Err(e)`), one per call; for the entry points, it is a function from call arguments to such a sequence;
- `time.perf_counter()` readings are a sequence `clock`:
  - `clock[0]` is read when the deadline is fixed;
  - `clock[k + 1]` is read by the time-limit check on the k-th caught exception;
- `random.random()` draws are a sequence `draws`, where `draws[k]` is used on the k-th caught exception;
- matching an exception against `exceptions` is a predicate;
- sleeping is recorded as the sequence of backoffs in the trace.

## Model

| member | source | states |
|---|---|---|
| RetryCore.Exhaustion | src/tubthumper/_retry_factory.py:81-95 | on exhaustion the caught exception itself is raised exactly when `reraise` is set; otherwise a `RetryError` is raised, chained from that exception and naming the limit that was hit |
| RetryCore.Logger.Log | src/tubthumper/_retry_factory.py:67-72 | `logger.log` appends exactly the given record and nothing else |
| ClosedFormRetry.GetTimeout | tubthumper/_retry_factory.py:127-128 | the deadline is infinite exactly when the time limit is; otherwise it lies exactly `time_limit` after the clock reading |
| ClosedFormRetry.UnjitteredBackoffGrows | tubthumper/_retry_factory.py:111 | the first retry uses `init_backoff`, and each further retry multiplies the un-jittered backoff by `exponential` |
| ClosedFormRetry.ProcessException | tubthumper/_retry_factory.py:104-124 | `retry_count >= retry_limit` raises for the retry limit before any backoff is computed; otherwise it sleeps exactly when the clock reading plus the jittered backoff is within the deadline, returning that backoff, and otherwise raises for the time limit |
| ClosedFormRetry.RunFrom | tubthumper/_retry_factory.py:72-79 | the calls from retry count k on lie between k and the number of outcomes; the run is one call longer than its sleeps unless the outcomes ran out; there is one log record per sleep |
| ClosedFormRetry.Run | tubthumper/_retry_factory.py:70-80 | an invocation calls the operation at least once; it logs once per sleep; it has exactly one more call than sleeps, unless the outcomes ran out |
| ClosedFormRetry.RetryFactory | tubthumper/_retry_factory.py:53-63 | the wrapped function keeps the operation and the configuration it was built from |
| ClosedFormRetry.Wrapped.Call | tubthumper/_retry_factory.py:70-80 | calling the wrapped function never calls the operation more often than it has outcomes; a returned value is the value of the last call; an exception that ends the invocation, propagated, re-raised or as the cause of `RetryError`, is the one raised by the last call |
| ClosedFormRetry.Backoff | tubthumper/_retry_factory.py:111-113 | without jitter the backoff is the closed form `init_backoff * exponential ** retry_count`; with jitter and a draw in [0, 1) it lies between 0 and a non-negative closed form |
| ClosedFormRetry.RetryFunc | tubthumper/_retry_factory.py:66-101 | the attempt loop produces exactly the trace `Run` defines, and it appends that trace's records, and nothing else, to the configured logger |
| ClosedFormRetry.RetriesTaken | tubthumper/_retry_factory.py:118-124 | every retry taken answers a caught exception within the retry limit; it sleeps the closed-form backoff within the deadline; its record has the configured level, try number `retry_count + 1`, that backoff and that exception |
| ClosedFormRetry.EndsAtLastCall | tubthumper/_retry_factory.py:72-80 | attempt indices have no gaps; the last call decides the exit: its value, its exception outside `exceptions`, or what `_process_exception` raised for it |
| ClosedFormRetry.RetryLimitBoundsCalls | tubthumper/_retry_factory.py:107-110 | with `retry_limit = N` there are at most N + 1 calls and at most N sleeps |
| ClosedFormRetry.RetriesUntil | tubthumper/_retry_factory.py:72-79 | caught failures that the retry limit allows, and whose backoffs each end within the deadline, are each retried once; the run then continues as from the next call |
| ClosedFormRetry.FirstSuccessReturned | tubthumper/_retry_factory.py:73-74 | after j caught failures that the retry limit allows and whose backoffs each end within the deadline, a success on call j returns its value after j + 1 calls and j sleeps |
| ClosedFormRetry.NonRetryablePropagated | tubthumper/_retry_factory.py:73-75 | after j caught failures that the retry limit allows and whose backoffs each end within the deadline, an exception outside `exceptions` on call j propagates unchanged after j + 1 calls, with no sleep or log record for it |
| ClosedFormRetry.RetryLimitExhausted | tubthumper/_retry_factory.py:107-110 | with `retry_limit = N`, no time limit and an operation that always fails retryably, there are exactly N + 1 calls and N sleeps; the last exception is then re-raised or chained to a retry-limit `RetryError` |
| ClosedFormRetry.RetryLimitZeroCallsOnce | tubthumper/_retry_factory.py:107-110 | `retry_limit = 0` calls the operation exactly once and never sleeps |
| ClosedFormRetry.ZeroTimeLimitStopsAtFirstFailure | tubthumper/_retry_factory.py:107-117 | with `time_limit = 0` and a positive backoff, the first caught exception ends the invocation with no sleep; a retry-limit hit at the same time is the reason given, since that check runs first |
| ClosedFormRetry.UnjitteredBackoffNonNegative | tubthumper/_retry_factory.py:111 | `init_backoff * exponential ** k` is non-negative, and positive when `init_backoff` is |
| ClosedFormRetry.BackoffBounds | tubthumper/_retry_factory.py:111-113 | without jitter the backoff is `init_backoff * exponential ** k`; with jitter it lies in `[0, init_backoff * exponential ** k]`, strictly below it when `init_backoff` is positive |
| ClosedFormRetry.SleepIsBackoff | tubthumper/_retry_factory.py:76-79 | the i-th sleep of an invocation is the backoff `_process_exception` computed at retry count i with draw i |
| ClosedFormRetry.SleepsAreBackoffs | tubthumper/_retry_factory.py:111-113 | the i-th sleep of an invocation is `init_backoff * exponential ** i`, multiplied by draw i under jitter, and lies within the jitter bounds |
| ClosedFormRetry.DeadlineRespected | tubthumper/_retry_factory.py:114-117 | for each retry taken, the clock reading at the decision plus the sleep is at most start + `time_limit` |
| StatefulRetry.CalcBackoff | src/tubthumper/_retry_factory.py:46-50 | without jitter `_calc_backoff` gives the un-jittered backoff; with jitter and a draw in [0, 1) it gives a value between 0 and a non-negative un-jittered backoff |
| StatefulRetry.HandleSpec | src/tubthumper/_retry_factory.py:58-73 | `handle` increments first; it raises for the retry limit when the new count exceeds it, which wins over the time limit; otherwise it sleeps exactly when the clock reading plus the new backoff is within the deadline, and otherwise raises for the time limit |
| StatefulRetry.StatefulRunCounts | src/tubthumper/_retry_factory.py:151-157 | each call but the last is followed by exactly one sleep and one log record; the run never goes past the outcomes it was given |
| StatefulRetry.StatefulRunHandles | src/tubthumper/_retry_factory.py:152-157 | on a caught exception the loop either stops with what `handle` raised or takes one more retry, with `handle`'s backoff and a record carrying the new count |
| StatefulRetry.IncrementsFromStart | src/tubthumper/_retry_factory.py:52-56 | after `start` and k increments, the count is k, the un-jittered backoff is `init_backoff * exponential ** k`, and the deadline is `now + time_limit` |
| StatefulRetry.LastIncrementBackoff | src/tubthumper/_retry_factory.py:75-79 | the backoff of the k-th increment is `init_backoff * exponential ** (k - 1)`, times its draw under jitter, so the first retry uses `init_backoff` exactly |
| StatefulRetry.StatefulRunIgnoresBackoff | src/tubthumper/_retry_factory.py:75-79 | the rest of a run does not depend on the backoff left in the handler, because `_increment` overwrites it before it is read |
| StatefulRetry.InvocationIgnoresPriorState | src/tubthumper/_retry_factory.py:117-133 | the handler is shared by all invocations of a wrapped function, yet an invocation's trace does not depend on what earlier invocations left in it |
| StatefulRetry.RetryHandler.constructor | src/tubthumper/_retry_factory.py:42-50 | the handler keeps the configuration it was built from |
| StatefulRetry.RetryHandler.Start | src/tubthumper/_retry_factory.py:52-56 | `start` sets count 0, the un-jittered backoff to `init_backoff` and the deadline to `now + time_limit`; the last backoff is kept |
| StatefulRetry.RetryHandler.Increment | src/tubthumper/_retry_factory.py:75-79 | the count goes up by exactly 1; the backoff comes from the un-jittered value before the multiply (times the draw under jitter); the un-jittered value is multiplied by `exponential` |
| StatefulRetry.RetryHandler.CheckRetryLimit | src/tubthumper/_retry_factory.py:81-87 | raises exactly when `count > retry_limit`, with the exhaustion for the retry limit |
| StatefulRetry.RetryHandler.CheckTimeLimit | src/tubthumper/_retry_factory.py:89-95 | raises exactly when `now + backoff` is past the deadline, with the exhaustion for the time limit |
| StatefulRetry.RetryHandler.Handle | src/tubthumper/_retry_factory.py:58-73 | the new handler state and the decision are those of `HandleSpec`; exactly one record (level, count, backoff, exception) is logged when it returns a backoff, and none when it raises |
| StatefulRetry.RetryFunction.constructor | src/tubthumper/_retry_factory.py:112-123 | `retry_factory` builds one fresh handler for the configuration |
| StatefulRetry.RetryFunction.Call | src/tubthumper/_retry_factory.py:144-159 | one invocation (`start`, then the `while True` loop) produces exactly the trace `StatefulInvocation` defines from the handler's prior state; it appends that trace's records, and nothing else, to the logger |
| RevisionAgreement.IncrementedCountCheck | src/tubthumper/_retry_factory.py:82 | for a whole-number limit, `count + 1 > retry_limit` holds exactly when `count >= retry_limit` does |
| RevisionAgreement.HandleAgreesWithProcessException | tubthumper/_retry_factory.py:104-124 | under a whole-number retry limit, `handle` after k increments decides as `_process_exception` at retry count k does: same raise, same backoff, same deadline; it leaves count k + 1 and the un-jittered backoff of retry k + 1 |
| RevisionAgreement.RunsAgree | src/tubthumper/_retry_factory.py:151-157 | under a whole-number retry limit, or none, the handler-driven run from call k, with a handler that has counted k and holds the closed-form un-jittered backoff of retry k, has the same trace as the closed-form run from retry count k with the handler's deadline |
| RevisionAgreement.InvocationsAgree | src/tubthumper/_retry_factory.py:144-159 | for a whole-number retry limit, or none, an invocation of the current revision has the same exit, calls, sleeps and log records as one of the older revision, whatever the handler held before |
| RevisionAgreement.StatefulRetryLimitBoundsCalls | src/tubthumper/_retry_factory.py:81-87 | in the current revision `retry_limit = N` allows at most N + 1 calls and N sleeps |
| RevisionAgreement.StatefulRetryLimitExhausted | src/tubthumper/_retry_factory.py:81-87 | in the current revision, an always-failing operation is called exactly N + 1 times under `retry_limit = N`; then the last exception is re-raised or chained to a retry-limit `RetryError` |
| RevisionAgreement.FractionalRetryLimitDisagrees | src/tubthumper/_retry_factory.py:82 | with `retry_limit = 0.5`, the current revision gives up after one failed call, while the older one retries it and returns the next call's value |
| Interfaces.RetryFactory | tubthumper/_interfaces.py:218-229 | `retry_factory` wraps the given function with a configuration holding each keyword argument, or its default, field for field |
| Interfaces.RetryDecorator | tubthumper/_interfaces.py:98-163 | `retry_decorator` builds a decorator whose configuration holds each keyword argument, or its default, field for field |
| Interfaces.Decorator.Apply | tubthumper/_interfaces.py:149-161 | applying the decorator wraps exactly the given function with the decorator's configuration |
| Interfaces.DecoratorMatchesFactory | tubthumper/_interfaces.py:149-163 | the decorator from `retry_decorator`, applied to a function, gives what `retry_factory` gives for that function with the same keyword arguments |
| Interfaces.RetryArgs | tubthumper/_interfaces.py:79-82 | missing `args` become no positional arguments and missing `kwargs` no keyword arguments; given ones are passed through unchanged |
| Interfaces.Retry | tubthumper/_interfaces.py:83-95 | `retry` is the function `retry_factory` builds from the same keyword arguments, called once with the defaulted arguments |
| Interfaces.Defaults | tubthumper/_interfaces.py:12-19 | by default: no retry limit, no time limit, `init_backoff = 1`, `exponential = 2`, jitter on, `reraise` off, level WARNING (30), the package logger |
| Interfaces.DefaultsNeverGiveUp | tubthumper/_interfaces.py:12-13 | with the default limits an invocation never raises `RetryError` and never re-raises a caught exception; only an exception outside `exceptions` escapes |
| Interfaces.RetryLimitOneAtMostTwoCalls | tubthumper/_interfaces.py:50-52 | `retry_limit=1` results in at most two calls |

## Left out

- Sleeping (`time.sleep`, `asyncio.sleep`) is recorded as the sequence of backoffs in the trace. One loop models both the sync and the async loop; `asyncio.iscoroutinefunction` dispatch is not modelled.
- Negative backoffs are not modelled as errors. With a negative `init_backoff`, or a negative `exponential` at an odd retry count, the sync loops end with the `ValueError` of `time.sleep` after the retry is logged, while `asyncio.sleep` returns at once. The model records the negative sleep and calls again, as the async loop does. The lemmas about backoff bounds assume `init_backoff >= 0` and `exponential > 0`.
- Float overflow is not modelled. The older revision computes `init_backoff * exponential ** retry_count` afresh, which raises `OverflowError` once the power leaves the float range (for example `exponential = 2.0` after about 1024 retries, even with `init_backoff = 0`). The current revision's repeated `*=` does not raise there. The agreement of the two revisions holds over exact reals only.
- Python floats are `real`: no rounding, no `nan`, no negative infinity. A limit is a real number or `+inf`.
- Log message text and its `:n` / `:.3f` formatting are not modelled. A record keeps the level, the try number, the backoff and the exception (`exc_info=True`).
- The `RetryError` message is reduced to which limit was hit and its configured value.
- `functools.update_wrapper` metadata, method binding, and matching exception classes against the `exceptions` tuple are not modelled; matching is a predicate.
- Concurrent invocations of one wrapped function, which share one handler, are not modelled. Invocations are sequential: each one finishes before the next starts.
- Nested invocations are not modelled: an operation that calls the same wrapped function. In the current revision the inner `start` resets the shared handler's count, un-jittered backoff and deadline, and the outer invocation then counts on from the inner one's state. The older revision keeps these in locals of each invocation, so the two revisions differ there. `InvocationsAgree` and `InvocationIgnoresPriorState` are about invocations that do not overlap.
- Random-generator state is not modelled. The current revision draws in `_increment` even when the retry-limit check then raises; the older revision does not draw in that case. Both use `draws[k]` for the k-th caught exception, and the unused draw on the terminal step changes nothing in the trace.
- The older revision's `raise COUNTER_EXCEPTION` is not modelled: `itertools.count()` never stops, so the line cannot be reached.
- The operation is a finite sequence of outcomes. When it runs out while the engine is about to call again, the trace ends in `OutOfOutcomes`. That exit is a limit of the model, not engine behaviour.
- The module-level `logging.getLogger("tubthumper")` default is the parameter `defaultLogger` of the entry points.
- In the older revision the log call is inside `_process_exception`. Here that function decides, and `RetryFunc` logs the same record when the decision is to sleep.
- The current revision's `_RetryHandler.__init__` leaves the per-invocation fields unset; the constructor gives them placeholder values, which `start` and `_increment` overwrite before any use.
- `RetryFunction.Call` describes one invocation. A sequence of invocations is covered by `InvocationIgnoresPriorState`, which shows that they do not influence one another.
- Type aliases and the logger protocol in `_types.py` have no behaviour and are not part of this model.
- Packaging, version, documentation and release scripts are not part of this model.
- The entry points are modelled over the engine that tubthumper/_interfaces.py imports, the older revision. The current revision's interfaces module is not part of this model; `src/tubthumper/__init__.py` only re-exports.
