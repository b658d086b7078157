/** The current revision of the retry engine (src/tubthumper/_retry_factory.py):
    a `_RetryHandler` object, built once per wrapped function, carries the retry
    count, the un-jittered backoff, the last backoff and the deadline. `start`
    resets it at the beginning of every invocation and `handle` advances it on
    every caught exception.

    The spec functions below give the handler's state after each method as a
    value; the class methods are proved against them. As in the older revision,
    `clock[0]` is the reading taken by `start`, `clock[k + 1]` the one taken by the
    time-limit check of the k-th `handle` (k = 0, 1, ...), and `draws[k]` what
    `random.random()` returns in that `handle`. */
module StatefulRetry {
  import opened RetryCore

  /** The mutable fields of a `_RetryHandler`. */
  datatype HandlerState = HandlerState(count: nat, unjitteredBackoff: real, backoff: real, timeout: ExtReal)

  /** `start`: deadline = now + time limit, count 0, un-jittered backoff back to
      `init_backoff`. The last backoff is left as it was. */
  function StartSpec<E>(config: RetryConfig<E>, s: HandlerState, now: real): HandlerState {
    s.(timeout := Plus(now, config.timeLimit), count := 0, unjitteredBackoff := config.initBackoff)
  }

  /** `_calc_backoff`, chosen once by `__init__` from `jitter`: the un-jittered
      backoff itself, or that backoff scaled by a draw, which for a draw in [0, 1)
      keeps a non-negative backoff between 0 and its un-jittered value. */
  function CalcBackoff<E>(config: RetryConfig<E>, unjittered: real, draw: real): (backoff: real)
    ensures !config.jitter ==> backoff == unjittered
    ensures config.jitter && 0.0 <= draw < 1.0 && unjittered >= 0.0 ==> 0.0 <= backoff <= unjittered
  {
    if !config.jitter then unjittered
    else if 0.0 <= draw < 1.0 && unjittered >= 0.0 then ScaleByUnit(unjittered, draw); unjittered * draw
    else unjittered * draw
  }

  /** `_increment`: one more retry counted; the backoff is taken from the
      un-jittered value before it is multiplied by `exponential`. */
  function IncrementSpec<E>(config: RetryConfig<E>, s: HandlerState, draw: real): HandlerState {
    s.(count := s.count + 1,
       backoff := CalcBackoff(config, s.unjitteredBackoff, draw),
       unjitteredBackoff := s.unjitteredBackoff * config.exponential)
  }

  /** `_check_retry_limit`: what it raises, if anything. */
  function RetryLimitCheck<E>(config: RetryConfig<E>, s: HandlerState, exc: E): Option<Raised<E>> {
    if Exceeds(s.count as real, config.retryLimit) then Some(Exhaustion(config, exc, RetryLimitReached(config.retryLimit)))
    else None
  }

  /** `_check_time_limit`, with `now` the clock reading it takes. */
  function TimeLimitCheck<E>(config: RetryConfig<E>, s: HandlerState, exc: E, now: real): Option<Raised<E>> {
    if Exceeds(now + s.backoff, s.timeout) then Some(Exhaustion(config, exc, TimeLimitExceeded(config.timeLimit)))
    else None
  }

  /** The state after `handle` and what it decided. */
  datatype Handled<E> = Handled(state: HandlerState, step: Step<E>)

  /** `handle`: increment, then the retry-limit check, then the time-limit check;
      a retry sleeps the backoff just computed. */
  function HandleSpec<E>(config: RetryConfig<E>, s: HandlerState, exc: E, draw: real, now: real): (h: Handled<E>)
    ensures h.state == IncrementSpec(config, s, draw)
    ensures Exceeds(h.state.count as real, config.retryLimit) ==>
              h.step == Stop(Exhaustion(config, exc, RetryLimitReached(config.retryLimit)))
    ensures h.step.Sleep? <==>
              !Exceeds(h.state.count as real, config.retryLimit) && !Exceeds(now + h.state.backoff, s.timeout)
    ensures h.step.Sleep? ==> h.step.backoff == h.state.backoff
    ensures h.step.Stop? && !Exceeds(h.state.count as real, config.retryLimit) ==>
              h.step == Stop(Exhaustion(config, exc, TimeLimitExceeded(config.timeLimit)))
  {
    var s1 := IncrementSpec(config, s, draw);
    match RetryLimitCheck(config, s1, exc)
    case Some(r) => Handled(s1, Stop(r))
    case None =>
      match TimeLimitCheck(config, s1, exc, now)
      case Some(r) => Handled(s1, Stop(r))
      case None => Handled(s1, Sleep(s1.backoff))
  }

  /** The rest of an invocation from call `k` on, with the handler in state `s`. */
  function StatefulRun<V, E>(config: RetryConfig<E>, outcomes: seq<Outcome<V, E>>, clock: seq<real>,
                             draws: seq<real>, k: nat, s: HandlerState): (t: Trace<V, E>)
    requires RunInputs(outcomes, clock, draws) && k <= |outcomes|
    decreases |outcomes| - k
  {
    if k == |outcomes| then Trace(OutOfOutcomes, k, [], [])
    else
      match outcomes[k]
      case Ok(v) => Trace(Returned(v), k + 1, [], [])
      case Err(e) =>
        if !config.exceptions(e) then Trace(Threw(Exc(e)), k + 1, [], [])
        else
          var h := HandleSpec(config, s, e, draws[k], clock[k + 1]);
          match h.step
          case Stop(r) => Trace(Threw(r), k + 1, [], [])
          case Sleep(b) =>
            Prepend([b], [RetryRecord(config, h.state.count, b, e)],
                    StatefulRun(config, outcomes, clock, draws, k + 1, h.state))
  }

  /** Every call but the last of an invocation is followed by exactly one sleep
      and one log record; the run never calls past the outcomes it was given. */
  lemma {:induction false} StatefulRunCounts<V, E>(config: RetryConfig<E>, outcomes: seq<Outcome<V, E>>,
                                                    clock: seq<real>, draws: seq<real>, k: nat, s: HandlerState)
    requires RunInputs(outcomes, clock, draws) && k <= |outcomes|
    ensures var t := StatefulRun(config, outcomes, clock, draws, k, s);
            && k <= t.calls <= |outcomes|
            && |t.records| == |t.sleeps|
            && t.calls == k + |t.sleeps| + (if t.exit.OutOfOutcomes? then 0 else 1)
    decreases |outcomes| - k
  {
    if k < |outcomes| && outcomes[k].Err? && config.exceptions(outcomes[k].exc) {
      var h := HandleSpec(config, s, outcomes[k].exc, draws[k], clock[k + 1]);
      if h.step.Sleep? {
        StatefulRunCounts(config, outcomes, clock, draws, k + 1, h.state);
      }
    }
  }

  /** One step of `StatefulRun` on a caught exception, after the retries
      already taken: `handle` either stops the run or adds one retry to them. */
  lemma StatefulRunHandles<V, E>(config: RetryConfig<E>, outcomes: seq<Outcome<V, E>>, clock: seq<real>,
                                 draws: seq<real>, k: nat, s: HandlerState,
                                 sleeps: seq<real>, records: seq<LogRecord<E>>)
    requires RunInputs(outcomes, clock, draws) && k < |outcomes|
    requires outcomes[k].Err? && config.exceptions(outcomes[k].exc)
    ensures var e := outcomes[k].exc;
            var h := HandleSpec(config, s, e, draws[k], clock[k + 1]);
            Prepend(sleeps, records, StatefulRun(config, outcomes, clock, draws, k, s)) ==
              if h.step.Stop? then Trace(Threw(h.step.raised), k + 1, sleeps, records)
              else Prepend(sleeps + [h.step.backoff], records + [RetryRecord(config, h.state.count, h.step.backoff, e)],
                           StatefulRun(config, outcomes, clock, draws, k + 1, h.state))
  {
    var e := outcomes[k].exc;
    var h := HandleSpec(config, s, e, draws[k], clock[k + 1]);
    if h.step.Sleep? {
      PrependTwice(sleeps, records, [h.step.backoff], [RetryRecord(config, h.state.count, h.step.backoff, e)],
                   StatefulRun(config, outcomes, clock, draws, k + 1, h.state));
    }
  }

  /** One invocation of the wrapped function, the handler having been left in
      state `s0` by whatever came before. */
  function StatefulInvocation<V, E>(config: RetryConfig<E>, s0: HandlerState, outcomes: seq<Outcome<V, E>>,
                                    clock: seq<real>, draws: seq<real>): Trace<V, E>
    requires RunInputs(outcomes, clock, draws)
  {
    StatefulRun(config, outcomes, clock, draws, 0, StartSpec(config, s0, clock[0]))
  }

  /** `n` consecutive increments, with the given draws. */
  function Increments<E>(config: RetryConfig<E>, s: HandlerState, draws: seq<real>): HandlerState
    decreases |draws|
  {
    if draws == [] then s
    else IncrementSpec(config, Increments(config, s, draws[..|draws| - 1]), draws[|draws| - 1])
  }

  /** After `start` and k increments, the count is k, the un-jittered backoff is
      `init_backoff * exponential ** k`, and the deadline is the one `start` set. */
  lemma {:induction false} IncrementsFromStart<E>(config: RetryConfig<E>, s0: HandlerState, now: real, draws: seq<real>)
    ensures var s := Increments(config, StartSpec(config, s0, now), draws);
            && s.count == |draws|
            && s.unjitteredBackoff == config.initBackoff * Pow(config.exponential, |draws|)
            && s.timeout == Plus(now, config.timeLimit)
    decreases |draws|
  {
    if draws != [] {
      var n := |draws| - 1;
      IncrementsFromStart(config, s0, now, draws[..n]);
      var p := Pow(config.exponential, n);
      assert Pow(config.exponential, n + 1) == config.exponential * p;
      assert (config.initBackoff * p) * config.exponential == config.initBackoff * (config.exponential * p);
    }
  }

  /** The backoff of the k-th increment after `start` is
      `init_backoff * exponential ** (k - 1)`, times its draw when jitter is on; so
      the first retry uses `init_backoff` exactly. */
  lemma LastIncrementBackoff<E>(config: RetryConfig<E>, s0: HandlerState, now: real, draws: seq<real>)
    requires |draws| > 0
    ensures var u := config.initBackoff * Pow(config.exponential, |draws| - 1);
            Increments(config, StartSpec(config, s0, now), draws).backoff ==
              if config.jitter then u * draws[|draws| - 1] else u
  {
    IncrementsFromStart(config, s0, now, draws[..|draws| - 1]);
  }

  /** What `handle` decides, and everything after it, never depends on the
      backoff left in the handler: `_increment` overwrites it before it is read. */
  lemma {:induction false} StatefulRunIgnoresBackoff<V, E>(config: RetryConfig<E>, outcomes: seq<Outcome<V, E>>,
                                                            clock: seq<real>, draws: seq<real>, k: nat,
                                                            s: HandlerState, s': HandlerState)
    requires RunInputs(outcomes, clock, draws) && k <= |outcomes|
    requires s.count == s'.count && s.unjitteredBackoff == s'.unjitteredBackoff && s.timeout == s'.timeout
    ensures StatefulRun(config, outcomes, clock, draws, k, s) == StatefulRun(config, outcomes, clock, draws, k, s')
    decreases |outcomes| - k
  {
    if k < |outcomes| && outcomes[k].Err? && config.exceptions(outcomes[k].exc) {
      var h := HandleSpec(config, s, outcomes[k].exc, draws[k], clock[k + 1]);
      var h' := HandleSpec(config, s', outcomes[k].exc, draws[k], clock[k + 1]);
      assert h == h';
    }
  }

  /** The handler shared by all invocations of one wrapped function carries
      nothing from one invocation into the next: `start` resets what matters. */
  lemma InvocationIgnoresPriorState<V, E>(config: RetryConfig<E>, s0: HandlerState, s1: HandlerState,
                                          outcomes: seq<Outcome<V, E>>, clock: seq<real>, draws: seq<real>)
    requires RunInputs(outcomes, clock, draws)
    ensures StatefulInvocation(config, s0, outcomes, clock, draws) == StatefulInvocation(config, s1, outcomes, clock, draws)
  {
    StatefulRunIgnoresBackoff(config, outcomes, clock, draws, 0, StartSpec(config, s0, clock[0]), StartSpec(config, s1, clock[0]));
  }

  /** `_RetryHandler`. */
  class RetryHandler<E> {
    const config: RetryConfig<E>
    var timeout: ExtReal
    var count: nat
    var backoff: real
    var unjitteredBackoff: real

    function State(): HandlerState
      reads this
    {
      HandlerState(count, unjitteredBackoff, backoff, timeout)
    }

    /** `__init__`. Python leaves the other fields unset until `start`; here they
        get placeholder values that `start` and `_increment` overwrite before use. */
    constructor (config: RetryConfig<E>)
      ensures this.config == config
    {
      this.config := config;
      timeout := Infinite;
      count := 0;
      backoff := 0.0;
      unjitteredBackoff := config.initBackoff;
    }

    method Start(now: real)
      modifies this
      ensures State() == StartSpec(config, old(State()), now)
    {
      timeout := Plus(now, config.timeLimit);
      count := 0;
      unjitteredBackoff := config.initBackoff;
    }

    method Increment(draw: real)
      modifies this
      ensures State() == IncrementSpec(config, old(State()), draw)
      ensures count == old(count) + 1
    {
      count := count + 1;
      backoff := CalcBackoff(config, unjitteredBackoff, draw);
      unjitteredBackoff := unjitteredBackoff * config.exponential;
    }

    /** Raises (returns `Some`) exactly when the count exceeds the retry limit. */
    method CheckRetryLimit(exc: E) returns (raised: Option<Raised<E>>)
      ensures raised == RetryLimitCheck(config, State(), exc)
      ensures raised.Some? <==> Exceeds(count as real, config.retryLimit)
    {
      if Exceeds(count as real, config.retryLimit) {
        raised := Some(Exhaustion(config, exc, RetryLimitReached(config.retryLimit)));
      } else {
        raised := None;
      }
    }

    /** Raises exactly when `now + backoff` is past the deadline. */
    method CheckTimeLimit(exc: E, now: real) returns (raised: Option<Raised<E>>)
      ensures raised == TimeLimitCheck(config, State(), exc, now)
      ensures raised.Some? <==> Exceeds(now + backoff, timeout)
    {
      if Exceeds(now + backoff, timeout) {
        raised := Some(Exhaustion(config, exc, TimeLimitExceeded(config.timeLimit)));
      } else {
        raised := None;
      }
    }

    /** `handle`: returns the backoff to sleep and logs the retry, or raises. */
    method Handle(exc: E, draw: real, now: real) returns (step: Step<E>)
      modifies this, config.logger
      ensures Handled(State(), step) == HandleSpec(config, old(State()), exc, draw, now)
      ensures config.logger.records ==
                old(config.logger.records) + (if step.Sleep? then [RetryRecord(config, count, step.backoff, exc)] else [])
    {
      Increment(draw);
      var raised := CheckRetryLimit(exc);
      if raised.Some? {
        return Stop(raised.value);
      }
      raised := CheckTimeLimit(exc, now);
      if raised.Some? {
        return Stop(raised.value);
      }
      config.logger.Log(RetryRecord(config, count, backoff, exc));
      step := Sleep(backoff);
    }
  }

  /** The `retry_func` closure built by `retry_factory`, which creates one handler
      per wrapped function; the operation it wraps is given, call by call, as the
      outcomes passed to `Call`. Invocations are sequential. */
  class RetryFunction<V, E> {
    const handler: RetryHandler<E>

    /** `retry_factory`. */
    constructor (config: RetryConfig<E>)
      ensures fresh(handler) && handler.config == config
    {
      handler := new RetryHandler(config);
    }

    /** One invocation: `start`, then call the operation until it returns, raises
        an exception outside `exceptions`, or `handle` raises; sleep between calls.
        The contract does not say what the handler holds afterwards: by
        `InvocationIgnoresPriorState` no later invocation can observe it. */
    method Call(outcomes: seq<Outcome<V, E>>, clock: seq<real>, draws: seq<real>) returns (t: Trace<V, E>)
      requires RunInputs(outcomes, clock, draws)
      modifies handler, handler.config.logger
      ensures t == StatefulInvocation(handler.config, old(handler.State()), outcomes, clock, draws)
      ensures handler.config.logger.records == old(handler.config.logger.records) + t.records
    {
      var config := handler.config;
      handler.Start(clock[0]);
      ghost var goal := StatefulRun(config, outcomes, clock, draws, 0, handler.State());
      assert goal == StatefulInvocation(config, old(handler.State()), outcomes, clock, draws);
      var sleeps: seq<real> := [];
      var records: seq<LogRecord<E>> := [];
      var k := 0;
      while k < |outcomes|
        invariant k <= |outcomes|
        invariant goal == Prepend(sleeps, records, StatefulRun(config, outcomes, clock, draws, k, handler.State()))
        invariant config.logger.records == old(config.logger.records) + records
      {
        match outcomes[k]
        case Ok(v) =>
          return Trace(Returned(v), k + 1, sleeps, records);
        case Err(exc) =>
          if !config.exceptions(exc) {
            return Trace(Threw(Exc(exc)), k + 1, sleeps, records);
          }
          StatefulRunHandles(config, outcomes, clock, draws, k, handler.State(), sleeps, records);
          var step := handler.Handle(exc, draws[k], clock[k + 1]);
          match step
          case Stop(r) =>
            return Trace(Threw(r), k + 1, sleeps, records);
          case Sleep(backoff) =>
            sleeps, records := sleeps + [backoff], records + [RetryRecord(config, handler.count, backoff, exc)];
            k := k + 1;
      }
      t := Trace(OutOfOutcomes, k, sleeps, records);
    }
  }
}
