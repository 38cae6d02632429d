/**
  NatsOptions: the mutable configuration holder of the Vert.x NATS client.
  It keeps six fields, builds the NATS connection-options builder lazily,
  and on every request for that builder rewires the builder's error
  listener so that the user's exception handler sees connection failures.
*/
module NatsConfig {

  import opened Wrappers
  import opened ErrorListeners

  /** A Java long. */
  type Long = x: int | -0x8000_0000_0000_0000 <= x < 0x8000_0000_0000_0000

  /** The NATS connection-options builder, reduced to the two things
      NatsOptions touches: whether reconnection was switched off and which
      error listener the options built from it would report. */
  class OptionsBuilder {
    var reconnectDisabled: bool
    var listener: Listener

    /** A fresh builder: reconnection on, and the listener the library picks. */
    constructor (initial: Listener)
      ensures !reconnectDisabled && listener == initial
    {
      reconnectDisabled := false;
      listener := initial;
    }

    /** noReconnect(): the connection will not try to reconnect. */
    method NoReconnect()
      modifies this`reconnectDisabled
      ensures reconnectDisabled
    {
      reconnectDisabled := true;
    }

    /** errorListener(l): install a new error listener. */
    method SetErrorListener(l: Listener)
      modifies this`listener
      ensures listener == l
    {
      listener := l;
    }

    /** build().getErrorListener(): the listener the options would use. */
    method BuiltErrorListener() returns (l: Listener)
      ensures l == listener
    {
      l := listener;
    }
  }

  /** A Vert.x instance, known only by its identity. */
  class Vertx {
    constructor ()
    {
    }
  }

  class NatsOptions {
    var natsBuilder: OptionsBuilder?
    var vertx: Vertx?
    var periodicFlush: bool
    var periodicFlushInterval: Long
    var autoReconnect: bool
    var exceptionHandler: Option<Handler>

    /** Every field starts at its Java default: no builder, no Vert.x
        instance, no handler, periodic flush off with interval 0, and
        auto-reconnect off. */
    constructor ()
      ensures natsBuilder == null && vertx == null
      ensures !periodicFlush && periodicFlushInterval == 0
      ensures !autoReconnect && exceptionHandler == None
    {
      natsBuilder := null;
      vertx := null;
      periodicFlush := false;
      periodicFlushInterval := 0;
      autoReconnect := false;
      exceptionHandler := None;
    }

    method GetExceptionHandler() returns (h: Option<Handler>)
      ensures h == exceptionHandler
    {
      h := exceptionHandler;
    }

    method SetExceptionHandler(h: Option<Handler>) returns (self: NatsOptions)
      modifies this`exceptionHandler
      ensures exceptionHandler == h && self == this
    {
      exceptionHandler := h;
      self := this;
    }

    method IsAutoReconnect() returns (b: bool)
      ensures b == autoReconnect
    {
      b := autoReconnect;
    }

    method SetAutoReconnect(b: bool) returns (self: NatsOptions)
      modifies this`autoReconnect
      ensures autoReconnect == b && self == this
    {
      autoReconnect := b;
      self := this;
    }

    /** The builder, created on first use with reconnection disabled unless
        auto-reconnect is on at that moment; an existing builder is returned
        as it is, whatever auto-reconnect says now. Either way its error
        listener is rewired by ConfigureExceptionHandler. `initial` is the
        listener a freshly created builder reports. */
    method GetNatsBuilder(initial: Listener) returns (b: OptionsBuilder)
      modifies this`natsBuilder, natsBuilder
      ensures natsBuilder == b
      ensures old(natsBuilder) == null ==>
        fresh(b) && b.reconnectDisabled == !autoReconnect &&
        b.listener == Configure(initial, exceptionHandler)
      ensures old(natsBuilder) != null ==>
        b == old(natsBuilder) && b.reconnectDisabled == old(natsBuilder.reconnectDisabled) &&
        b.listener == Configure(old(natsBuilder.listener), exceptionHandler)
    {
      if natsBuilder == null {
        natsBuilder := new OptionsBuilder(initial);
        var auto := IsAutoReconnect();
        if !auto {
          natsBuilder.NoReconnect();
        }
      }
      ConfigureExceptionHandler();
      b := natsBuilder;
    }

    /** With a handler set, replaces the builder's listener: by a chain of
        the current listener and the handler when the current one is the
        default logger, by a handler-only listener otherwise. The handler
        is the one set at this moment; a later SetExceptionHandler does not
        reach the installed listener. */
    method ConfigureExceptionHandler()
      requires natsBuilder != null
      modifies natsBuilder
      ensures natsBuilder.listener == Configure(old(natsBuilder.listener), exceptionHandler)
      ensures natsBuilder.reconnectDisabled == old(natsBuilder.reconnectDisabled)
    {
      var handler := GetExceptionHandler();
      if handler.Some? {
        var current := natsBuilder.BuiltErrorListener();
        if !current.DefaultLogger? {
          natsBuilder.SetErrorListener(HandlerOnly(handler.value));
        } else {
          var errorListener := natsBuilder.BuiltErrorListener();
          natsBuilder.SetErrorListener(Chained(errorListener, handler.value));
        }
      }
    }

    /** Stores the given builder as it is; it is not given noReconnect. */
    method SetNatsBuilder(b: OptionsBuilder?) returns (self: NatsOptions)
      modifies this`natsBuilder
      ensures natsBuilder == b && self == this
    {
      natsBuilder := b;
      self := this;
    }

    /** The Vert.x instance, created on first use and reused afterwards. */
    method GetVertx() returns (v: Vertx)
      modifies this`vertx
      ensures vertx == v
      ensures old(vertx) == null ==> fresh(v)
      ensures old(vertx) != null ==> v == old(vertx)
    {
      if vertx == null {
        vertx := new Vertx();
      }
      v := vertx;
    }

    method SetVertx(v: Vertx?) returns (self: NatsOptions)
      modifies this`vertx
      ensures vertx == v && self == this
    {
      vertx := v;
      self := this;
    }

    method IsPeriodicFlush() returns (b: bool)
      ensures b == periodicFlush
    {
      b := periodicFlush;
    }

    method SetPeriodicFlush(b: bool) returns (self: NatsOptions)
      modifies this`periodicFlush
      ensures periodicFlush == b && self == this
    {
      periodicFlush := b;
      self := this;
    }

    method GetPeriodicFlushInterval() returns (interval: Long)
      ensures interval == periodicFlushInterval
    {
      interval := periodicFlushInterval;
    }

    method SetPeriodicFlushInterval(interval: Long) returns (self: NatsOptions)
      modifies this`periodicFlushInterval
      ensures periodicFlushInterval == interval && self == this
    {
      periodicFlushInterval := interval;
      self := this;
    }
  }
}
