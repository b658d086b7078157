/** The public entry points of tubthumper/_interfaces.py: `retry` (call once with
    retry logic), `retry_decorator` and `retry_factory` (wrap a function for later
    calls). All three build the same frozen configuration from keyword arguments
    with the same defaults, and hand the function to the engine of
    tubthumper/_retry_factory.py.

    Python's module-level default logger, `logging.getLogger("tubthumper")`, is the
    parameter `defaultLogger`: it is the logger used when `logger` is not given. */
module Interfaces {
  import opened RetryCore
  import ClosedFormRetry

  const RETRY_LIMIT_DEFAULT: ExtReal := Infinite
  const TIME_LIMIT_DEFAULT: ExtReal := Infinite
  const INIT_BACKOFF_DEFAULT: real := 1.0
  const EXPONENTIAL_DEFAULT: real := 2.0
  const JITTER_DEFAULT: bool := true
  const RERAISE_DEFAULT: bool := false
  /** `logging.WARNING`. */
  const WARNING: int := 30
  const LOG_LEVEL_DEFAULT: int := WARNING

  /** `retry_factory`: the wrapped function, configured from the keyword arguments. */
  function RetryFactory<A, V, E>(func: CallArgs<A> -> seq<Outcome<V, E>>, exceptions: E -> bool,
                                 defaultLogger: Logger<E>,
                                 retryLimit: ExtReal := RETRY_LIMIT_DEFAULT,
                                 timeLimit: ExtReal := TIME_LIMIT_DEFAULT,
                                 initBackoff: real := INIT_BACKOFF_DEFAULT,
                                 exponential: real := EXPONENTIAL_DEFAULT,
                                 jitter: bool := JITTER_DEFAULT,
                                 reraise: bool := RERAISE_DEFAULT,
                                 logLevel: int := LOG_LEVEL_DEFAULT,
                                 logger: Logger<E> := defaultLogger): (w: ClosedFormRetry.Wrapped<A, V, E>)
    ensures w.func == func
    ensures w.config.exceptions == exceptions && w.config.logger == logger
    ensures w.config.retryLimit == retryLimit && w.config.timeLimit == timeLimit
    ensures w.config.initBackoff == initBackoff && w.config.exponential == exponential
    ensures w.config.jitter == jitter && w.config.reraise == reraise && w.config.logLevel == logLevel
  {
    ClosedFormRetry.RetryFactory(func, RetryConfig(exceptions, retryLimit, timeLimit, initBackoff, exponential,
                                                   jitter, reraise, logLevel, logger))
  }

  /** The `decorator` closure returned by `retry_decorator`: it holds the
      configuration built from the keyword arguments, and wraps each function it is
      applied to with that configuration. */
  datatype Decorator<!E> = Decorator(config: RetryConfig<E>) {
    /** Applying the decorator to `func`. */
    function Apply<A, V>(func: CallArgs<A> -> seq<Outcome<V, E>>): (w: ClosedFormRetry.Wrapped<A, V, E>)
      ensures w.func == func && w.config == config
    {
      ClosedFormRetry.RetryFactory(func, config)
    }
  }

  /** `retry_decorator`: a decorator whose configuration holds each keyword
      argument, or its default, field for field. */
  function RetryDecorator<E>(exceptions: E -> bool,
                             defaultLogger: Logger<E>,
                             retryLimit: ExtReal := RETRY_LIMIT_DEFAULT,
                             timeLimit: ExtReal := TIME_LIMIT_DEFAULT,
                             initBackoff: real := INIT_BACKOFF_DEFAULT,
                             exponential: real := EXPONENTIAL_DEFAULT,
                             jitter: bool := JITTER_DEFAULT,
                             reraise: bool := RERAISE_DEFAULT,
                             logLevel: int := LOG_LEVEL_DEFAULT,
                             logger: Logger<E> := defaultLogger): (decorator: Decorator<E>)
    ensures decorator.config.exceptions == exceptions && decorator.config.logger == logger
    ensures decorator.config.retryLimit == retryLimit && decorator.config.timeLimit == timeLimit
    ensures decorator.config.initBackoff == initBackoff && decorator.config.exponential == exponential
    ensures decorator.config.jitter == jitter && decorator.config.reraise == reraise
    ensures decorator.config.logLevel == logLevel
  {
    Decorator(RetryConfig(exceptions, retryLimit, timeLimit, initBackoff, exponential,
                          jitter, reraise, logLevel, logger))
  }

  /** Decorating a function gives what `retry_factory` gives for it with the same
      keyword arguments. */
  lemma DecoratorMatchesFactory<A, V, E>(func: CallArgs<A> -> seq<Outcome<V, E>>, exceptions: E -> bool,
                                         defaultLogger: Logger<E>, retryLimit: ExtReal, timeLimit: ExtReal,
                                         initBackoff: real, exponential: real, jitter: bool, reraise: bool,
                                         logLevel: int, logger: Logger<E>)
    ensures RetryDecorator(exceptions, defaultLogger, retryLimit, timeLimit, initBackoff, exponential,
                           jitter, reraise, logLevel, logger).Apply(func) ==
            RetryFactory(func, exceptions, defaultLogger, retryLimit, timeLimit, initBackoff, exponential,
                         jitter, reraise, logLevel, logger)
  {
  }

  /** The call arguments of `retry`: missing `args` are no positional arguments,
      missing `kwargs` no keyword arguments. */
  function RetryArgs<A>(args: Option<seq<A>>, kwargs: Option<map<string, A>>): (call: CallArgs<A>)
    ensures args.None? ==> call.positional == []
    ensures args.Some? ==> call.positional == args.value
    ensures kwargs.None? ==> call.keyword == map[]
    ensures kwargs.Some? ==> call.keyword == kwargs.value
  {
    CallArgs(args.GetOr([]), kwargs.GetOr(map[]))
  }

  /** `retry`: one invocation of `func` with retry logic. It is the function that
      `retry_factory` would build from the same keyword arguments, called once. */
  function Retry<A, V, E>(func: CallArgs<A> -> seq<Outcome<V, E>>, exceptions: E -> bool,
                          defaultLogger: Logger<E>, clock: seq<real>, draws: seq<real>,
                          args: Option<seq<A>> := None,
                          kwargs: Option<map<string, A>> := None,
                          retryLimit: ExtReal := RETRY_LIMIT_DEFAULT,
                          timeLimit: ExtReal := TIME_LIMIT_DEFAULT,
                          initBackoff: real := INIT_BACKOFF_DEFAULT,
                          exponential: real := EXPONENTIAL_DEFAULT,
                          jitter: bool := JITTER_DEFAULT,
                          reraise: bool := RERAISE_DEFAULT,
                          logLevel: int := LOG_LEVEL_DEFAULT,
                          logger: Logger<E> := defaultLogger): (t: Trace<V, E>)
    requires RunInputs(func(RetryArgs(args, kwargs)), clock, draws)
    ensures t == RetryFactory(func, exceptions, defaultLogger, retryLimit, timeLimit, initBackoff, exponential,
                              jitter, reraise, logLevel, logger).Call(RetryArgs(args, kwargs), clock, draws)
  {
    var config := RetryConfig(exceptions, retryLimit, timeLimit, initBackoff, exponential,
                              jitter, reraise, logLevel, logger);
    ClosedFormRetry.Run(config, func(RetryArgs(args, kwargs)), clock, draws)
  }

  /** The documented defaults: no retry limit, no time limit, first backoff 1 s,
      doubling, jitter on, `RetryError` rather than re-raising, logged at WARNING
      on the package logger. */
  lemma Defaults<A, V, E>(func: CallArgs<A> -> seq<Outcome<V, E>>, exceptions: E -> bool, defaultLogger: Logger<E>)
    ensures RetryFactory(func, exceptions, defaultLogger).config ==
              RetryConfig(exceptions, Infinite, Infinite, 1.0, 2.0, true, false, 30, defaultLogger)
  {
  }

  /** With the default limits the engine never gives up: an invocation ends with
      the operation's value, with an exception outside `exceptions`, or not at all
      (the outcomes run out); it never raises `RetryError` and never re-raises a
      caught exception. */
  lemma DefaultsNeverGiveUp<A, V, E>(func: CallArgs<A> -> seq<Outcome<V, E>>, exceptions: E -> bool,
                                     defaultLogger: Logger<E>, args: CallArgs<A>, clock: seq<real>, draws: seq<real>)
    requires RunInputs(func(args), clock, draws)
    ensures var t := RetryFactory(func, exceptions, defaultLogger).Call(args, clock, draws);
            t.exit.Threw? ==> t.exit.raised.Exc? && !exceptions(t.exit.raised.exc)
  {
    var w := RetryFactory(func, exceptions, defaultLogger);
    var outcomes := func(args);
    var timeout := ClosedFormRetry.GetTimeout(w.config.timeLimit, clock[0]);
    ClosedFormRetry.EndsAtLastCall(w.config, outcomes, clock, draws, 0, timeout);
  }

  /** `retry_limit=1` results in at most two calls, as the documentation of all
      three entry points says. */
  lemma RetryLimitOneAtMostTwoCalls<A, V, E>(func: CallArgs<A> -> seq<Outcome<V, E>>, exceptions: E -> bool,
                                             defaultLogger: Logger<E>, args: CallArgs<A>,
                                             clock: seq<real>, draws: seq<real>)
    requires RunInputs(func(args), clock, draws)
    ensures RetryFactory(func, exceptions, defaultLogger, retryLimit := Finite(1.0)).Call(args, clock, draws).calls <= 2
  {
    var w := RetryFactory(func, exceptions, defaultLogger, retryLimit := Finite(1.0));
    ClosedFormRetry.RetryLimitBoundsCalls(w.config, func(args), clock, draws, 1);
  }
}
