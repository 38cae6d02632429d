/**
  The error-listener side of NatsOptions: the failures a NATS connection
  reports, the IllegalStateException a Vert.x exception handler receives,
  the listeners a builder can hold, and the rewiring that
  configureExceptionHandler performs. Everything here is a value; the
  builder object that stores a listener lives in module NatsConfig.
*/
module ErrorListeners {

  import opened Wrappers

  /** A Java exception passed to ErrorListener.exceptionOccurred, by identity. */
  datatype Exception = Exception(id: nat)

  /** A user-supplied Handler<Throwable>, by identity. */
  datatype Handler = Handler(id: nat)

  /** One failure report from the connection: errorOccurred or exceptionOccurred. */
  datatype Event =
    | ErrorOccurred(error: string)
    | ExceptionOccurred(exp: Exception)

  /** The IllegalStateException handed to the user handler: built either
      from the error text or with the exception as its cause. */
  datatype IllegalState =
    | IllegalStateMessage(message: string)
    | IllegalStateCause(cause: Exception)

  /** The error listener a builder holds.
      DefaultLogger: the library's logging listener (ErrorListenerLoggerImpl).
      Other: any other listener not installed by NatsOptions.
      HandlerOnly: the wrapper that forwards only to the user handler.
      Chained: the wrapper that calls the listener it captured, then the handler. */
  datatype Listener =
    | DefaultLogger
    | Other(id: nat)
    | HandlerOnly(handler: Handler)
    | Chained(inner: Listener, handler: Handler)

  /** One call a listener makes while handling an event. */
  datatype Sink =
    | LoggerCall(event: Event)
    | OtherCall(id: nat, event: Event)
    | HandlerCall(handler: Handler, failure: IllegalState)

  /** The exception a handler receives for an event: the inverse is Unwrap. */
  function Wrap(e: Event): (f: IllegalState)
    ensures Unwrap(f) == e
  {
    match e
    case ErrorOccurred(error) => IllegalStateMessage(error)
    case ExceptionOccurred(exp) => IllegalStateCause(exp)
  }

  /** Recovers the event an IllegalStateException was built from. */
  function Unwrap(f: IllegalState): (e: Event)
  {
    match f
    case IllegalStateMessage(message) => ErrorOccurred(message)
    case IllegalStateCause(cause) => ExceptionOccurred(cause)
  }

  /** Whether a call made for event e was handed e itself, or, for the user
      handler, the IllegalStateException wrapping e. */
  predicate Receives(s: Sink, e: Event) {
    match s
    case LoggerCall(event) => event == e
    case OtherCall(_, event) => event == e
    case HandlerCall(_, failure) => failure == Wrap(e)
  }

  /** The ordered list of calls a listener makes for one errorOccurred or
      exceptionOccurred event. Every listener makes at least one call for
      such an event and every call concerns that event. */
  function Dispatch(l: Listener, e: Event): (r: seq<Sink>)
    ensures r != []
    ensures forall s :: s in r ==> Receives(s, e)
  {
    match l
    case DefaultLogger => [LoggerCall(e)]
    case Other(id) => [OtherCall(id, e)]
    case HandlerOnly(h) => [HandlerCall(h, Wrap(e))]
    case Chained(inner, h) => Dispatch(inner, e) + [HandlerCall(h, Wrap(e))]
  }

  /** Whether the default logger is reached through the listener's wrappers. */
  predicate HasLogger(l: Listener) {
    match l
    case DefaultLogger => true
    case Other(_) => false
    case HandlerOnly(_) => false
    case Chained(inner, _) => HasLogger(inner)
  }

  /** A listener calls the default logger for an event exactly when the
      logger is part of it. */
  lemma {:induction false} LoggerCalledIff(l: Listener, e: Event)
    ensures LoggerCall(e) in Dispatch(l, e) <==> HasLogger(l)
  {
    match l
    case DefaultLogger =>
    case Other(_) =>
    case HandlerOnly(_) =>
    case Chained(inner, h) =>
      LoggerCalledIff(inner, e);
      assert Dispatch(l, e) == Dispatch(inner, e) + [HandlerCall(h, Wrap(e))];
  }

  /** The listener configureExceptionHandler leaves on the builder, given the
      listener it finds there and the handler currently set. Without a
      handler nothing changes; over the default logger the new listener
      calls the logger and then the handler; over anything else it calls
      only the handler, dropping what was there. */
  function Configure(current: Listener, handler: Option<Handler>): (r: Listener)
    ensures handler.None? ==> r == current
    ensures handler.Some? && current.DefaultLogger? ==>
      forall e :: Dispatch(r, e) == [LoggerCall(e), HandlerCall(handler.value, Wrap(e))]
    ensures handler.Some? && !current.DefaultLogger? ==>
      forall e :: Dispatch(r, e) == [HandlerCall(handler.value, Wrap(e))]
  {
    match handler
    case None => current
    case Some(h) => if current.DefaultLogger? then Chained(current, h) else HandlerOnly(h)
  }

  /** The listener after n successive configureExceptionHandler runs with
      the same handler setting. */
  function ConfigureRepeatedly(l: Listener, handler: Option<Handler>, n: nat): (r: Listener)
  {
    if n == 0 then l else Configure(ConfigureRepeatedly(l, handler, n - 1), handler)
  }

  /** Without a handler, any number of runs leaves the listener as it was:
      a corollary of the first postcondition of Configure. */
  lemma {:induction false} NoHandlerKeepsListener(l: Listener, n: nat)
    ensures ConfigureRepeatedly(l, None, n) == l
  {
    if n > 0 {
      NoHandlerKeepsListener(l, n - 1);
    }
  }

  /** Attaching the handler is not idempotent: starting from the default
      logger, the first run chains logger and handler, and every later run
      replaces that chain with a handler-only listener, so from the second
      run on the logger is no longer called. */
  lemma RepeatedConfigureDropsLogger(h: Handler, n: nat, e: Event)
    requires n >= 1
    ensures n == 1 ==> Dispatch(ConfigureRepeatedly(DefaultLogger, Some(h), n), e)
                        == [LoggerCall(e), HandlerCall(h, Wrap(e))]
    ensures n >= 2 ==> Dispatch(ConfigureRepeatedly(DefaultLogger, Some(h), n), e)
                        == [HandlerCall(h, Wrap(e))]
    ensures n >= 2 ==> LoggerCall(e) !in Dispatch(ConfigureRepeatedly(DefaultLogger, Some(h), n), e)
  {
  }
}
