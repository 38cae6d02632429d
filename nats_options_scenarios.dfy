/**
  Properties of NatsOptions that span several calls, stated as client
  methods on a NatsOptions object they create themselves. Each method's
  postcondition follows from the contracts in NatsConfig alone.
*/
module NatsOptionsScenarios {

  import opened Wrappers
  import opened ErrorListeners
  import opened NatsConfig

  /** A fresh NatsOptions has auto-reconnect off, so the builder it creates
      has reconnection disabled. */
  method DefaultDisablesReconnect(initial: Listener) returns (auto: bool, disabled: bool)
    ensures !auto && disabled
  {
    var o := new NatsOptions();
    auto := o.IsAutoReconnect();
    var b := o.GetNatsBuilder(initial);
    disabled := b.reconnectDisabled;
  }

  /** A created builder has reconnection disabled exactly when auto-reconnect
      was off at creation; switching auto-reconnect afterwards changes
      neither the stored builder nor its reconnection setting. */
  method ReconnectFixedAtCreation(initial: Listener, atCreation: bool, later: bool)
    returns (disabledFirst: bool, sameBuilder: bool, disabledLater: bool)
    ensures disabledFirst == !atCreation
    ensures sameBuilder && disabledLater == disabledFirst
  {
    var o := new NatsOptions();
    var _ := o.SetAutoReconnect(atCreation);
    var b1 := o.GetNatsBuilder(initial);
    disabledFirst := b1.reconnectDisabled;
    var _ := o.SetAutoReconnect(later);
    var b2 := o.GetNatsBuilder(initial);
    sameBuilder := b1 == b2;
    disabledLater := b2.reconnectDisabled;
  }

  /** A builder installed with SetNatsBuilder is returned as it is and is
      never given noReconnect, even with auto-reconnect off. */
  method InstalledBuilderKeepsReconnect(initial: Listener, auto: bool)
    returns (same: bool, disabled: bool)
    ensures same && !disabled
  {
    var o := new NatsOptions();
    var _ := o.SetAutoReconnect(auto);
    var installed := new OptionsBuilder(initial);
    var _ := o.SetNatsBuilder(installed);
    var b := o.GetNatsBuilder(initial);
    same := b == installed;
    disabled := b.reconnectDisabled;
  }

  /** With no exception handler set, however often the builder is asked
      for, its error listener stays the one it started with. */
  method NoHandlerLeavesListener(initial: Listener) returns (first: Listener, second: Listener)
    ensures first == initial && second == initial
  {
    var o := new NatsOptions();
    var b := o.GetNatsBuilder(initial);
    first := b.listener;
    b := o.GetNatsBuilder(initial);
    second := b.listener;
  }

  /** Over the default logger the first request chains logger and handler,
      which both see the event, logger first; the second request replaces
      the chain by a handler-only listener and the logger is dropped. */
  method SecondRequestDropsLogger(h: Handler, e: Event) returns (first: seq<Sink>, second: seq<Sink>)
    ensures first == [LoggerCall(e), HandlerCall(h, Wrap(e))]
    ensures second == [HandlerCall(h, Wrap(e))]
  {
    var o := new NatsOptions();
    var _ := o.SetExceptionHandler(Some(h));
    var b := o.GetNatsBuilder(DefaultLogger);
    first := Dispatch(b.listener, e);
    b := o.GetNatsBuilder(DefaultLogger);
    second := Dispatch(b.listener, e);
  }

  /** Over a listener that is not the default logger, the handler replaces
      it: the old listener is no longer called. */
  method OtherListenerReplaced(id: nat, h: Handler, e: Event) returns (calls: seq<Sink>)
    ensures calls == [HandlerCall(h, Wrap(e))]
  {
    var o := new NatsOptions();
    var installed := new OptionsBuilder(Other(id));
    var _ := o.SetNatsBuilder(installed);
    var _ := o.SetExceptionHandler(Some(h));
    var b := o.GetNatsBuilder(DefaultLogger);
    calls := Dispatch(b.listener, e);
  }

  /** The handler is captured when the listener is installed: a handler set
      afterwards is reached only once the builder is requested again. */
  method HandlerCapturedAtInstall(initial: Listener, h1: Handler, h2: Handler, e: Event)
    returns (before: seq<Sink>, after: seq<Sink>)
    ensures before != [] && before[|before| - 1] == HandlerCall(h1, Wrap(e))
    ensures after == [HandlerCall(h2, Wrap(e))]
  {
    var o := new NatsOptions();
    var _ := o.SetExceptionHandler(Some(h1));
    var b := o.GetNatsBuilder(initial);
    var _ := o.SetExceptionHandler(Some(h2));
    before := Dispatch(b.listener, e);
    b := o.GetNatsBuilder(initial);
    after := Dispatch(b.listener, e);
  }

  /** Each setter stores its argument and returns the same object without
      touching the other fields, so each getter returns what was set. */
  method SettersRoundTrip(h: Option<Handler>, auto: bool, flush: bool, interval: Long)
    returns (chained: bool, gotHandler: Option<Handler>, gotAuto: bool, gotFlush: bool, gotInterval: Long)
    ensures chained
    ensures gotHandler == h && gotAuto == auto && gotFlush == flush && gotInterval == interval
  {
    var o := new NatsOptions();
    var o1 := o.SetExceptionHandler(h);
    var o2 := o1.SetAutoReconnect(auto);
    var o3 := o2.SetPeriodicFlush(flush);
    var o4 := o3.SetPeriodicFlushInterval(interval);
    chained := o1 == o && o2 == o && o3 == o && o4 == o;
    gotHandler := o.GetExceptionHandler();
    gotAuto := o.IsAutoReconnect();
    gotFlush := o.IsPeriodicFlush();
    gotInterval := o.GetPeriodicFlushInterval();
  }

  /** The Vert.x instance is created once and reused; one set with SetVertx
      is returned as it is. */
  method VertxCreatedOnce() returns (sameCreated: bool, sameInstalled: bool)
    ensures sameCreated && sameInstalled
  {
    var o := new NatsOptions();
    var v1 := o.GetVertx();
    var v2 := o.GetVertx();
    sameCreated := v1 == v2;
    var installed := new Vertx();
    var _ := o.SetVertx(installed);
    var v3 := o.GetVertx();
    sameInstalled := v3 == installed;
  }
}
