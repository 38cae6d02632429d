# NatsOptions: configuration holder of the Vert.x NATS client

This project models `NatsOptions`, the mutable configuration object of the
Vert.x adapter for the NATS Java client, and proves what its code promises.
The object holds six fields: the NATS connection-options builder, the Vert.x
instance, the periodic-flush flag and interval, the auto-reconnect flag and
the user's exception handler. It does three things:

- plain fluent setters (each returns the same object) and getters;
- lazy creation of the connection-options builder on first request, with
  reconnection switched off when auto-reconnect is off at that moment
  (it is off by default), and lazy creation of the Vert.x instance;
- on every builder request, rewiring of the builder's error listener so
  that the user's handler receives each connection error or exception
  wrapped in an `IllegalStateException`: chained after the library's
  default logger when that logger is the current listener, replacing the
  current listener otherwise.

Files:

- `wrappers.dfy` (module `Wrappers`): `Option`, standing for a Java
  reference that may be null.
- `error_listeners.dfy` (module `ErrorListeners`): the failure events, the
  `IllegalStateException` the handler receives (`Wrap`), the listeners a
  builder can hold (`Listener`), the ordered calls a listener makes for one
  event (`Dispatch`) and the rewiring rule (`Configure`), with lemmas.
- `nats_config.dfy` (module `NatsConfig`): the class `NatsOptions` with the
  source's six fields and methods, the class `OptionsBuilder` standing for
  the NATS library's builder (only whether reconnection was disabled and
  which error listener it holds), and the class `Vertx`, an identity only.
- `nats_options_scenarios.dfy` (module `NatsOptionsScenarios`): properties
  that span several calls, stated as client methods that create their own
  `NatsOptions`; their postconditions follow from the class contracts.

Attaching the exception handler is not idempotent. `getNatsBuilder`
rewires the listener on every call, and the handler is chained after the
default logger only while the logger is the current listener. After the
first call the listener is the chain, not the logger, so the second call
installs a handler-only listener and the logger is no longer called
(`ErrorListeners.RepeatedConfigureDropsLogger`,
`NatsOptionsScenarios.SecondRequestDropsLogger`).

## Model

| member | source | states |
|---|---|---|
| `ErrorListeners.Wrap` | src/main/java/io/nats/vertx/NatsOptions.java:57-82 | the handler's exception is built from the error text or with the exception as cause, and the original event can always be recovered from it (`Unwrap` inverts it), in both listener kinds |
| `ErrorListeners.Dispatch` | src/main/java/io/nats/vertx/NatsOptions.java:57-82 | every listener makes at least one call for an `errorOccurred` or `exceptionOccurred` event, and every call concerns that event: the logger and other listeners receive it, the handler receives its `IllegalStateException` |
| `ErrorListeners.LoggerCalledIff` | src/main/java/io/nats/vertx/NatsOptions.java:69-81 | a listener calls the default logger for an event exactly when the logger is wrapped inside it |
| `ErrorListeners.Configure` | src/main/java/io/nats/vertx/NatsOptions.java:52-85 | with no handler the listener is unchanged; over the default logger the new listener calls the logger then the handler for every event; over any other listener it calls only the handler |
| `ErrorListeners.NoHandlerKeepsListener` | src/main/java/io/nats/vertx/NatsOptions.java:53 | with no handler set, any number of rewiring runs leaves the listener unchanged |
| `ErrorListeners.RepeatedConfigureDropsLogger` | src/main/java/io/nats/vertx/NatsOptions.java:48-83 | from the default logger, the first run makes logger and handler see each event in that order; from the second run on only the handler is called and the logger never is |
| `NatsConfig.OptionsBuilder.constructor` | src/main/java/io/nats/vertx/NatsOptions.java:43 | a new builder has reconnection enabled and holds the listener the library chooses |
| `NatsConfig.OptionsBuilder.NoReconnect` | src/main/java/io/nats/vertx/NatsOptions.java:45 | reconnection is disabled; only that setting changes |
| `NatsConfig.OptionsBuilder.SetErrorListener` | src/main/java/io/nats/vertx/NatsOptions.java:57 | the builder's listener becomes the given one; only that setting changes |
| `NatsConfig.OptionsBuilder.BuiltErrorListener` | src/main/java/io/nats/vertx/NatsOptions.java:55 | reports the listener the built options would use, changing nothing |
| `NatsConfig.NatsOptions.constructor` | src/main/java/io/nats/vertx/NatsOptions.java:11-17 | a new object has no builder, no Vert.x instance, no handler, periodic flush off with interval 0 and auto-reconnect off |
| `NatsConfig.NatsOptions.GetExceptionHandler` | src/main/java/io/nats/vertx/NatsOptions.java:19-21 | returns the stored handler, changing nothing |
| `NatsConfig.NatsOptions.SetExceptionHandler` | src/main/java/io/nats/vertx/NatsOptions.java:23-26 | stores exactly the handler, changes no other field, returns the same object |
| `NatsConfig.NatsOptions.IsAutoReconnect` | src/main/java/io/nats/vertx/NatsOptions.java:28-30 | returns the stored flag, changing nothing |
| `NatsConfig.NatsOptions.SetAutoReconnect` | src/main/java/io/nats/vertx/NatsOptions.java:32-35 | stores exactly the flag, changes no other field and no builder, returns the same object |
| `NatsConfig.NatsOptions.GetNatsBuilder` | src/main/java/io/nats/vertx/NatsOptions.java:41-50 | with no builder stored, creates and stores a fresh one whose reconnection is disabled iff auto-reconnect is off; otherwise returns the stored builder with its reconnection setting untouched; in both cases the listener becomes `Configure` of the previous one and the current handler |
| `NatsConfig.NatsOptions.ConfigureExceptionHandler` | src/main/java/io/nats/vertx/NatsOptions.java:52-85 | the stored builder's listener becomes `Configure` of its old listener and the current handler; its reconnection setting is untouched |
| `NatsConfig.NatsOptions.SetNatsBuilder` | src/main/java/io/nats/vertx/NatsOptions.java:92-95 | stores exactly the given builder without touching it, changes no other field, returns the same object |
| `NatsConfig.NatsOptions.GetVertx` | src/main/java/io/nats/vertx/NatsOptions.java:100-105 | with no instance stored, creates and stores a fresh one; otherwise returns the stored one |
| `NatsConfig.NatsOptions.SetVertx` | src/main/java/io/nats/vertx/NatsOptions.java:112-115 | stores exactly the given instance, changes no other field, returns the same object |
| `NatsConfig.NatsOptions.IsPeriodicFlush` | src/main/java/io/nats/vertx/NatsOptions.java:117-119 | returns the stored flag, changing nothing |
| `NatsConfig.NatsOptions.SetPeriodicFlush` | src/main/java/io/nats/vertx/NatsOptions.java:121-124 | stores exactly the flag, changes no other field, returns the same object |
| `NatsConfig.NatsOptions.GetPeriodicFlushInterval` | src/main/java/io/nats/vertx/NatsOptions.java:126-128 | returns the stored interval, changing nothing |
| `NatsConfig.NatsOptions.SetPeriodicFlushInterval` | src/main/java/io/nats/vertx/NatsOptions.java:130-133 | stores exactly the interval, changes no other field, returns the same object |
| `NatsOptionsScenarios.DefaultDisablesReconnect` | src/main/java/io/nats/vertx/NatsOptions.java:16-46 | a fresh object reports auto-reconnect off and the builder it creates has reconnection disabled |
| `NatsOptionsScenarios.ReconnectFixedAtCreation` | src/main/java/io/nats/vertx/NatsOptions.java:41-47 | the created builder has reconnection disabled iff auto-reconnect was off at creation; changing the flag later leaves both the stored builder and its setting as they were |
| `NatsOptionsScenarios.InstalledBuilderKeepsReconnect` | src/main/java/io/nats/vertx/NatsOptions.java:92-95 | a builder installed by the setter is the one later returned and is never given noReconnect, whatever the flag |
| `NatsOptionsScenarios.NoHandlerLeavesListener` | src/main/java/io/nats/vertx/NatsOptions.java:48-53 | with no handler, repeated builder requests leave the listener as the library created it |
| `NatsOptionsScenarios.SecondRequestDropsLogger` | src/main/java/io/nats/vertx/NatsOptions.java:48-83 | over the default logger, after the first request logger then handler see an event; after the second only the handler does |
| `NatsOptionsScenarios.OtherListenerReplaced` | src/main/java/io/nats/vertx/NatsOptions.java:55-67 | a listener other than the default logger is replaced: afterwards only the handler is called |
| `NatsOptionsScenarios.HandlerCapturedAtInstall` | src/main/java/io/nats/vertx/NatsOptions.java:53-67 | the installed listener keeps the handler set when it was installed; a handler set later is reached only after the next builder request, and then alone |
| `NatsOptionsScenarios.SettersRoundTrip` | src/main/java/io/nats/vertx/NatsOptions.java:19-35 | the setters chain on the same object and each getter returns what its setter stored (also for the periodic-flush pair at lines 117-133) |
| `NatsOptionsScenarios.VertxCreatedOnce` | src/main/java/io/nats/vertx/NatsOptions.java:100-115 | repeated requests return the same Vert.x instance, and an installed instance is returned as it is |

## Left out

- The NATS library's `Options.Builder`, `Options.build()` and
  `ErrorListenerLoggerImpl` are a foreign library: the builder is reduced to
  a reconnect-disabled flag and a listener, the listener a fresh builder
  reports is a parameter of `GetNatsBuilder`, "is the default logger" is the
  `DefaultLogger` constructor (a subclass of the logger is not distinguished),
  and exceptions `build()` might throw are not modelled.
- The `Connection` argument of the listener callbacks is dropped: the code
  only forwards it to the captured logger.
- What the logger prints, and the message text of an `IllegalStateException`
  built from a cause, are not modelled; the cause is kept by identity.
- `Vertx.vertx()` is a foreign runtime: a Vert.x instance is an identity only.
- The periodic-flush flag and interval are stored and returned only; nothing
  in `NatsOptions` acts on them, so no timing behaviour is modelled.
- Only the two callbacks `errorOccurred` and `exceptionOccurred` are
  modelled (`Event`). The wrappers installed at
  src/main/java/io/nats/vertx/NatsOptions.java:57-67 and 70-82 override only
  these two; every other `ErrorListener` callback keeps the interface's
  default and is not forwarded to the captured logger, so once a wrapper is
  installed the logger no longer sees those other notifications.
- `NatsClient` and `NatsStream` (the client and the JetStream adapter used
  in src/test/java/io/nats/vertx/NatsStreamTest.java:86-87) are not part
  of this model: their tests need a live server, threads and timing.
