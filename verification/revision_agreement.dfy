/** The two revisions of the engine side by side. The current one keeps a running
    count and a running un-jittered backoff in a handler and increments the count
    before checking `count > retry_limit`; the older one computes the backoff in
    closed form and checks `retry_count >= retry_limit` before counting. For a
    whole-number retry limit (or none) the two decide every caught exception alike,
    so every invocation has the same trace: same exit, same calls, same sleeps, same
    log records. For a fractional limit they part ways. */
module RevisionAgreement {
  import opened RetryCore
  import opened ClosedFormRetry
  import opened StatefulRetry

  /** For a whole-number limit L and a count k, `k + 1 > L` exactly when `k >= L`. */
  lemma IncrementedCountCheck(k: nat, limit: ExtReal)
    requires IsWhole(limit)
    ensures Exceeds((k + 1) as real, limit) <==> AtLeast(k as real, limit)
  {
    if limit.Finite? {
      var f := limit.value.Floor;
      assert limit.value == f as real;
      assert (k + 1) as real > f as real <==> k + 1 > f;
      assert k as real >= f as real <==> k >= f;
    }
  }

  /** One caught exception: a handler that has counted k retries and holds the
      closed-form un-jittered backoff of retry k decides as `_process_exception`
      does at retry count k, with the same deadline; afterwards it has counted k + 1
      and holds the un-jittered backoff of retry k + 1. */
  lemma HandleAgreesWithProcessException<E>(config: RetryConfig<E>, s: HandlerState, k: nat, exc: E,
                                            draw: real, now: real)
    requires IsWhole(config.retryLimit)
    requires s.count == k && s.unjitteredBackoff == UnjitteredBackoff(config, k)
    ensures var h := HandleSpec(config, s, exc, draw, now);
            && h.step == ProcessException(config, exc, k, s.timeout, now, draw)
            && h.state.count == k + 1
            && h.state.unjitteredBackoff == UnjitteredBackoff(config, k + 1)
            && h.state.timeout == s.timeout
  {
    UnjitteredBackoffGrows(config, k);
    IncrementedCountCheck(k, config.retryLimit);
    var h := HandleSpec(config, s, exc, draw, now);
    assert h.state.backoff == Backoff(config, k, draw);
  }

  /** From call k on, the handler-driven run and the closed-form run coincide. */
  lemma {:induction false} RunsAgree<V, E>(config: RetryConfig<E>, outcomes: seq<Outcome<V, E>>, clock: seq<real>,
                                            draws: seq<real>, k: nat, s: HandlerState)
    requires IsWhole(config.retryLimit)
    requires RunInputs(outcomes, clock, draws) && k <= |outcomes|
    requires s.count == k && s.unjitteredBackoff == UnjitteredBackoff(config, k)
    ensures StatefulRun(config, outcomes, clock, draws, k, s) == RunFrom(config, outcomes, clock, draws, k, s.timeout)
    decreases |outcomes| - k
  {
    if k < |outcomes| && outcomes[k].Err? && config.exceptions(outcomes[k].exc) {
      var e := outcomes[k].exc;
      HandleAgreesWithProcessException(config, s, k, e, draws[k], clock[k + 1]);
      var h := HandleSpec(config, s, e, draws[k], clock[k + 1]);
      if h.step.Sleep? {
        RunsAgree(config, outcomes, clock, draws, k + 1, h.state);
      }
    }
  }

  /** A whole invocation: whatever state earlier invocations left in the handler,
      the current revision produces the trace of the older one. */
  lemma InvocationsAgree<V, E>(config: RetryConfig<E>, s0: HandlerState, outcomes: seq<Outcome<V, E>>,
                               clock: seq<real>, draws: seq<real>)
    requires IsWhole(config.retryLimit) && RunInputs(outcomes, clock, draws)
    ensures StatefulInvocation(config, s0, outcomes, clock, draws) == Run(config, outcomes, clock, draws)
  {
    UnjitteredBackoffGrows(config, 0);
    RunsAgree(config, outcomes, clock, draws, 0, StartSpec(config, s0, clock[0]));
  }

  /** The current revision inherits the bound of the older one: with
      `retry_limit = N` an invocation calls the operation at most N + 1 times and
      sleeps at most N times. */
  lemma StatefulRetryLimitBoundsCalls<V, E>(config: RetryConfig<E>, s0: HandlerState, outcomes: seq<Outcome<V, E>>,
                                            clock: seq<real>, draws: seq<real>, n: nat)
    requires RunInputs(outcomes, clock, draws)
    requires config.retryLimit == Finite(n as real)
    ensures StatefulInvocation(config, s0, outcomes, clock, draws).calls <= n + 1
    ensures |StatefulInvocation(config, s0, outcomes, clock, draws).sleeps| <= n
  {
    InvocationsAgree(config, s0, outcomes, clock, draws);
    RetryLimitBoundsCalls(config, outcomes, clock, draws, n);
  }

  /** Retry-limit exhaustion in the current revision: with `retry_limit = N`, no
      time limit and an operation that always fails with a caught exception, `handle`
      raises on the N + 1-th failure, after N sleeps; the last exception is re-raised
      (`reraise`) or chained to a `RetryError` naming the retry limit. */
  lemma StatefulRetryLimitExhausted<V, E>(config: RetryConfig<E>, s0: HandlerState, outcomes: seq<Outcome<V, E>>,
                                          clock: seq<real>, draws: seq<real>, n: nat)
    requires RunInputs(outcomes, clock, draws) && |outcomes| > n
    requires forall i :: 0 <= i < |outcomes| ==> outcomes[i].Err? && config.exceptions(outcomes[i].exc)
    requires config.retryLimit == Finite(n as real) && config.timeLimit == Infinite
    ensures var t := StatefulInvocation(config, s0, outcomes, clock, draws);
            && t.calls == n + 1 && |t.sleeps| == n
            && t.exit == Threw(Exhaustion(config, outcomes[n].exc, RetryLimitReached(Finite(n as real))))
  {
    InvocationsAgree(config, s0, outcomes, clock, draws);
    RetryLimitExhausted(config, outcomes, clock, draws, n);
  }

  /** With `retry_limit = 0.5` and no time limit, an operation that fails once with
      a caught exception and then returns v: the current revision gives up after the
      first call (1 > 0.5), the older one retries (0 >= 0.5 is false) and returns v. */
  lemma FractionalRetryLimitDisagrees<V, E>(config: RetryConfig<E>, s0: HandlerState, e: E, v: V,
                                            clock: seq<real>, draws: seq<real>)
    requires config.retryLimit == Finite(0.5) && config.timeLimit == Infinite && config.exceptions(e)
    requires |clock| > 2 && |draws| >= 2
    ensures var outcomes := [Err(e), Ok(v)];
            var t := StatefulInvocation(config, s0, outcomes, clock, draws);
            var u := Run(config, outcomes, clock, draws);
            && t.exit == Threw(Exhaustion(config, e, RetryLimitReached(Finite(0.5)))) && t.calls == 1
            && u.exit == Returned(v) && u.calls == 2
  {
    var outcomes: seq<Outcome<V, E>> := [Err(e), Ok(v)];
    assert outcomes[0] == Err(e) && outcomes[1] == Ok(v);
    var s := StartSpec(config, s0, clock[0]);
    var h := HandleSpec(config, s, e, draws[0], clock[1]);
    assert h.state.count == 1 && h.step.Stop?;
    var timeout := GetTimeout(config.timeLimit, clock[0]);
    assert timeout == Infinite;
    assert ProcessException(config, e, 0, timeout, clock[1], draws[0]).Sleep?;
    assert RunFrom(config, outcomes, clock, draws, 1, timeout) == Trace(Returned(v), 2, [], []);
  }
}
