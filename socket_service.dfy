/**
 * The client event hub `SocketIOService` and the state of its React hook
 * `useSocketIO` (frontend/services/websocket.ts).
 *
 * The socket.io client is an abstract handle: an identity, the configuration
 * it was opened with, its `connected` flag, and the callbacks attached to it
 * directly. What the library does on its
 * own (the handshake, reconnection, its events) enters as parameters: the
 * outcome of the handshake at `Connect`, and `TransportChanged` for the flag.
 */
module SocketService {
  import opened Optional
  import opened ListenerRegistry
  import opened SocketOptions

  /** A listener attached straight to a socket by `socket.on(event, callback)`. */
  datatype Attachment = Attachment(event: string, callback: Callback)

  datatype Socket = Socket(id: nat, connected: bool, config: ClientConfig, direct: seq<Attachment>)

  /** A message handed to a socket's `emit`. */
  datatype Emission = Emission(socketId: nat, event: string, data: Payload)

  /** A value thrown or rejected with: an `Error` object, or anything else. */
  datatype Thrown = ErrorObject(message: string) | OtherValue

  /** How opening a socket goes, as the library reports it. */
  datatype Handshake =
    | Established          // the socket fires 'connect'
    | Refused(err: Thrown) // the socket fires 'connect_error'
    | Pending              // neither has fired yet
    | IoThrew(err: Thrown) // `io(...)` itself threw

  /** The settled state of the promise `connect()` returns. */
  datatype ConnectResult = Resolved | Rejected(err: Thrown) | Unsettled

  /** The POST request `prepareDrink` sends. */
  datatype HttpRequest = HttpRequest(verb: string, url: string)

  /** The handle returned by `on`: calling it unsubscribes `callback` from `event`. */
  datatype Subscription = Subscription(event: string, callback: Callback)

  /** The events the service relays from its socket to the registry. */
  const RelayedEvents: set<string> :=
    {"status_update", "operation_started", "operation_completed", "operation_failed", "message", "pong_client"}

  /** `socket.on(event, callback)`: the socket's emitter appends the callback, duplicates included. */
  function Attach(sock: Socket, a: Attachment): (r: Socket)
    ensures r.id == sock.id && r.connected == sock.connected && r.config == sock.config
    ensures Attached(r.direct, a.event) == Attached(sock.direct, a.event) + [a.callback]
    ensures forall e :: e != a.event ==> Attached(r.direct, e) == Attached(sock.direct, e)
  {
    AttachedAppend(sock.direct, a);
    sock.(direct := sock.direct + [a])
  }

  /** The callbacks attached to a socket for `event`, in attachment order. */
  function Attached(direct: seq<Attachment>, event: string): (r: seq<Callback>)
    ensures forall cb :: cb in r <==> Attachment(event, cb) in direct
    ensures |r| <= |direct|
    decreases |direct|
  {
    if direct == [] then []
    else (if direct[0].event == event then [direct[0].callback] else []) + Attached(direct[1..], event)
  }

  lemma {:induction false} AttachedAppend(direct: seq<Attachment>, a: Attachment)
    ensures Attached(direct + [a], a.event) == Attached(direct, a.event) + [a.callback]
    ensures forall e :: e != a.event ==> Attached(direct + [a], e) == Attached(direct, e)
    decreases |direct|
  {
    if direct == [] {
      assert Attached([a], a.event) == [a.callback] + Attached([], a.event);
      forall e | e != a.event ensures Attached([a], e) == Attached([], e) {
        assert Attached([a], e) == [] + Attached([a][1..], e);
      }
    } else {
      assert (direct + [a])[1..] == direct[1..] + [a];
      AttachedAppend(direct[1..], a);
    }
  }

  /** `socket.off(event, callback)`: the emitter drops the first matching attachment only. */
  function Detach(direct: seq<Attachment>, a: Attachment): (r: seq<Attachment>)
    ensures a in direct ==> |r| == |direct| - 1
    ensures a !in direct ==> r == direct
    ensures forall x :: x in r ==> x in direct
    decreases |direct|
  {
    if direct == [] then []
    else if direct[0] == a then direct[1..]
    else [direct[0]] + Detach(direct[1..], a)
  }

  /**
   * `socket.off` removes exactly the first attachment equal to `a`: the ones
   * before it and the ones after it stay, in their order.
   */
  lemma {:induction false} DetachRemovesFirstMatch(direct: seq<Attachment>, a: Attachment) returns (k: nat)
    requires a in direct
    ensures k < |direct| && direct[k] == a && a !in direct[..k]
    ensures Detach(direct, a) == direct[..k] + direct[k + 1..]
    decreases |direct|
  {
    if direct[0] == a {
      k := 0;
    } else {
      var j := DetachRemovesFirstMatch(direct[1..], a);
      k := j + 1;
      assert direct[..k] == [direct[0]] + direct[1..][..j];
      assert direct[k + 1..] == direct[1..][j + 1..];
    }
  }

  /**
   * The socket's own dispatch of an event to its attached callbacks: each in
   * turn, until one throws; the emitter does not catch, so the rest are skipped.
   */
  function UntilThrow(cbs: seq<Callback>, data: Payload, failing: set<Callback>): (r: seq<Invocation>)
    ensures |r| <= |cbs|
    ensures forall i :: 0 <= i < |r| ==>
              r[i].callback == cbs[i] && r[i].data == data && (r[i].threw <==> cbs[i] in failing)
    ensures forall i :: 0 <= i < |r| - 1 ==> !r[i].threw
    ensures |r| < |cbs| ==> 0 < |r| && r[|r| - 1].threw
    decreases |cbs|
  {
    if cbs == [] then []
    else if cbs[0] in failing then [Invocation(cbs[0], data, true)]
    else [Invocation(cbs[0], data, false)] + UntilThrow(cbs[1..], data, failing)
  }

  /** Everything called when `event` arrives on a socket with attachments `direct`. */
  function Arrival(reg: Registry, direct: seq<Attachment>, event: string, data: Payload, failing: set<Callback>): (r: seq<Invocation>)
    ensures |r| <= |Subscribers(reg, event)| + |Attached(direct, event)|
    ensures forall i :: 0 <= i < |r| ==> r[i].data == data
    ensures event !in RelayedEvents ==> forall i :: 0 <= i < |r| ==> r[i].callback in Attached(direct, event)
  {
    (if event in RelayedEvents then Deliveries(reg, event, data, failing) else [])
    + UntilThrow(Attached(direct, event), data, failing)
  }

  class SocketIOService {
    const url: string
    const options: ClientOptions
    var socket: Option<Socket>
    var listeners: Registry
    /** How many sockets `connect` has opened; the next one gets this number as its identity. */
    var openCount: nat
    /** The identities of the sockets `disconnect` has closed, in order. */
    var closed: seq<nat>
    /** Everything handed to a socket's `emit`. */
    var sent: seq<Emission>

    ghost predicate Valid()
      reads this
    {
      && ListenerRegistry.Valid(listeners)
      && (socket.Some? ==> socket.value.id < openCount && socket.value.id !in closed)
      && forall k :: 0 <= k < |closed| ==> closed[k] < openCount
    }

    constructor (o: ServiceOptions)
      ensures Valid()
      ensures url == o.url && options == o.client
      ensures socket.None? && listeners == map[] && openCount == 0 && closed == [] && sent == []
    {
      url := o.url;
      options := o.client;
      socket := None;
      listeners := map[];
      openCount := 0;
      closed := [];
      sent := [];
    }

    /** `disconnect()`: close the socket if there is one and forget it. Safe to repeat. */
    method Disconnect()
      requires Valid()
      modifies this
      ensures Valid()
      ensures socket.None?
      ensures closed == old(closed) + (if old(socket).Some? then [old(socket).value.id] else [])
      ensures listeners == old(listeners) && openCount == old(openCount) && sent == old(sent)
    {
      if socket.Some? {
        closed := closed + [socket.value.id];
        socket := None;
      }
    }

    /**
     * `connect()`: close any existing socket first, then open a new one with the
     * resolved options. The returned promise settles by the handshake.
     */
    method Connect(handshake: Handshake) returns (result: ConnectResult)
      requires Valid()
      modifies this
      ensures Valid()
      ensures closed == old(closed) + (if old(socket).Some? then [old(socket).value.id] else [])
      ensures handshake.IoThrew? ==> socket.None? && openCount == old(openCount)
      ensures !handshake.IoThrew? ==>
                && socket == Some(Socket(old(openCount), handshake.Established?, ResolveOptions(options), []))
                && openCount == old(openCount) + 1
      ensures result == match handshake
                        case Established => Resolved
                        case Refused(e) => Rejected(e)
                        case Pending => Unsettled
                        case IoThrew(e) => Rejected(e)
      ensures listeners == old(listeners) && sent == old(sent)
    {
      Disconnect();
      if handshake.IoThrew? {
        return Rejected(handshake.err);
      }
      socket := Some(Socket(openCount, handshake.Established?, ResolveOptions(options), []));
      openCount := openCount + 1;
      result := match handshake
        case Established => Resolved
        case Refused(e) => Rejected(e)
        case Pending => Unsettled;
    }

    /** The library flips the socket's `connected` flag as the transport comes and goes. */
    method TransportChanged(up: bool)
      requires Valid()
      modifies this
      ensures Valid()
      ensures socket == if old(socket).Some? then Some(old(socket).value.(connected := up)) else None
      ensures listeners == old(listeners) && openCount == old(openCount) && closed == old(closed) && sent == old(sent)
    {
      if socket.Some? {
        socket := Some(socket.value.(connected := up));
      }
    }

    /** The guard of `emit`: a socket exists and it is connected. */
    predicate CanEmit()
      reads this
      ensures CanEmit() ==> socket.Some?
    {
      socket.Some? && socket.value.connected
    }

    /** `emit(event, data)`: hand the message to the socket, or drop it (with a warning) when not connected. */
    method Emit(event: string, data: Payload)
      requires Valid()
      modifies this
      ensures Valid()
      ensures sent == old(sent) + (if old(CanEmit()) then [Emission(old(socket).value.id, event, data)] else [])
      ensures socket == old(socket) && listeners == old(listeners)
      ensures openCount == old(openCount) && closed == old(closed)
    {
      if socket.None? || !socket.value.connected {
        return;
      }
      sent := sent + [Emission(socket.value.id, event, data)];
    }

    /** `pingServer()`: emit a liveness probe carrying the client's clock reading `now`. */
    method PingServer(now: string)
      requires Valid()
      modifies this
      ensures Valid()
      ensures sent == old(sent) + (if old(CanEmit()) then [Emission(old(socket).value.id, "ping_server", map["time" := now])] else [])
      ensures socket == old(socket) && listeners == old(listeners)
      ensures openCount == old(openCount) && closed == old(closed)
    {
      Emit("ping_server", map["time" := now]);
    }

    /**
     * `on(event, callback)`: subscribe, and return the handle that unsubscribes.
     * When a socket exists the callback is also attached to it directly.
     */
    method On(event: string, callback: Callback) returns (unsubscribe: Subscription)
      requires Valid()
      modifies this
      ensures Valid()
      ensures listeners == Register(old(listeners), event, callback)
      ensures unsubscribe == Subscription(event, callback) && unsubscribe.event in listeners
      ensures socket == if old(socket).Some? then Some(Attach(old(socket).value, Attachment(event, callback))) else None
      ensures openCount == old(openCount) && closed == old(closed) && sent == old(sent)
    {
      if event !in listeners {
        listeners := listeners[event := []];
      }
      var eventListeners := listeners[event];
      if callback !in eventListeners {
        eventListeners := eventListeners + [callback];
      }
      listeners := listeners[event := eventListeners];
      if socket.Some? {
        socket := Some(socket.value.(direct := socket.value.direct + [Attachment(event, callback)]));
      }
      unsubscribe := Subscription(event, callback);
    }

    /**
     * Calling the handle `on` returned: delete the callback from its event's
     * set, and detach it from whatever socket exists now (which need not be
     * the socket it was attached to).
     */
    method Unsubscribe(s: Subscription)
      requires Valid() && s.event in listeners
      modifies this
      ensures Valid()
      ensures listeners == Unregister(old(listeners), s.event, s.callback)
      ensures socket == if old(socket).Some? then Some(old(socket).value.(direct := Detach(old(socket).value.direct, Attachment(s.event, s.callback)))) else None
      ensures openCount == old(openCount) && closed == old(closed) && sent == old(sent)
    {
      UnregisterPreservesValid(listeners, s.event, s.callback);
      listeners := listeners[s.event := SetDelete(listeners[s.event], s.callback)];
      if socket.Some? {
        socket := Some(socket.value.(direct := Detach(socket.value.direct, Attachment(s.event, s.callback))));
      }
    }

    /**
     * `notifyListeners(event, data)`: call every callback of the event once, in
     * set order, catching what a callback throws so the others still run.
     * Which callbacks throw is given by `failing`.
     */
    method NotifyListeners(event: string, data: Payload, failing: set<Callback>) returns (log: seq<Invocation>)
      ensures log == Deliveries(listeners, event, data, failing)
      ensures |log| == |Subscribers(listeners, event)|
    {
      log := [];
      if event in listeners {
        var eventListeners := listeners[event];
        for i := 0 to |eventListeners|
          invariant log == Deliveries(listeners, event, data, failing)[..i]
        {
          var threw := eventListeners[i] in failing;
          log := log + [Invocation(eventListeners[i], data, threw)];
        }
      }
    }

    /**
     * An event arriving on the socket. The relay `connect()` set up runs first
     * (for the relayed names only), then the callbacks attached directly, in
     * attachment order, until one of them throws.
     */
    method Receive(event: string, data: Payload, failing: set<Callback>) returns (log: seq<Invocation>)
      requires socket.Some?
      ensures log == Arrival(listeners, socket.value.direct, event, data, failing)
    {
      log := [];
      if event in RelayedEvents {
        log := NotifyListeners(event, data, failing);
      }
      log := log + UntilThrow(Attached(socket.value.direct, event), data, failing);
    }

    /** The request `prepareDrink(drinkId)` sends: a POST to the drink's preparation URL. */
    function PrepareDrink(drinkId: int): (r: HttpRequest)
      ensures r.verb == "POST" && r.url == PrepCocktailUrl(url, drinkId)
    {
      HttpRequest("POST", PrepCocktailUrl(url, drinkId))
    }
  }

  /** `err instanceof Error ? err : new Error('Connection failed')`. */
  function AsError(t: Thrown): (r: Thrown)
    ensures r.ErrorObject?
    ensures t.ErrorObject? ==> r == t
    ensures t.OtherValue? ==> r.message == "Connection failed"
  {
    if t.ErrorObject? then t else ErrorObject("Connection failed")
  }

  /**
   * The state `useSocketIO` keeps beside its service: `isConnected` and the
   * last connection `error`. The three status listeners the hook registers
   * are modelled by HandleConnect, HandleDisconnect and HandleError.
   */
  class SocketHook {
    const service: SocketIOService
    var isConnected: bool
    var error: Option<Thrown>

    ghost predicate Valid()
      reads this, service
    {
      service.Valid()
    }

    constructor (url: string, o: ClientOptions)
      ensures Valid() && fresh(service)
      ensures !isConnected && error.None?
      ensures service.url == url && service.options == o
      ensures service.socket.None? && service.listeners == map[]
    {
      service := new SocketIOService(ServiceOptions(url, o));
      isConnected := false;
      error := None;
    }

    /**
     * The hook's `connect`: await the service's `connect()`; on success mark the
     * hook connected and clear the error, on rejection mark it disconnected and
     * keep the error (as an `Error`). An unsettled promise changes neither.
     */
    method Connect(handshake: Handshake)
      requires Valid()
      modifies this, service
      ensures Valid()
      ensures service.closed == old(service.closed) + (if old(service.socket).Some? then [old(service.socket).value.id] else [])
      ensures service.listeners == old(service.listeners) && service.sent == old(service.sent)
      ensures handshake.Established? ==> isConnected && error.None?
      ensures (handshake.Refused? || handshake.IoThrew?) ==> !isConnected && error == Some(AsError(handshake.err))
      ensures handshake.Pending? ==> isConnected == old(isConnected) && error == old(error)
      ensures handshake.IoThrew? ==> service.socket.None? && service.openCount == old(service.openCount)
      ensures !handshake.IoThrew? ==>
                && service.socket == Some(Socket(old(service.openCount), handshake.Established?, ResolveOptions(service.options), []))
                && service.openCount == old(service.openCount) + 1
    {
      var result := service.Connect(handshake);
      match result {
        case Resolved =>
          isConnected := true;
          error := None;
        case Rejected(e) =>
          isConnected := false;
          error := Some(AsError(e));
        case Unsettled =>
      }
    }

    /** The hook's `disconnect`: disconnect the service and mark the hook disconnected; the error stays. */
    method Disconnect()
      requires Valid()
      modifies this, service
      ensures Valid()
      ensures !isConnected && error == old(error)
      ensures service.socket.None? && service.openCount == old(service.openCount)
      ensures service.closed == old(service.closed) + (if old(service.socket).Some? then [old(service.socket).value.id] else [])
      ensures service.listeners == old(service.listeners) && service.sent == old(service.sent)
    {
      service.Disconnect();
      isConnected := false;
    }

    /**
     * The mount effect: subscribe the three status listeners (identified by
     * `onConnect`, `onDisconnect`, `onError`) and connect. The handles `on`
     * returns are dropped, so these subscriptions outlive the unmount.
     */
    method Mount(onConnect: Callback, onDisconnect: Callback, onError: Callback, handshake: Handshake)
      requires Valid()
      modifies this, service
      ensures Valid()
      ensures service.listeners ==
              Register(Register(Register(old(service.listeners), "connect", onConnect),
                                "disconnect", onDisconnect), "connect_error", onError)
      ensures handshake.Established? ==> isConnected && error.None?
      ensures (handshake.Refused? || handshake.IoThrew?) ==> !isConnected && error == Some(AsError(handshake.err))
      ensures handshake.Pending? ==> isConnected == old(isConnected) && error == old(error)
      ensures service.closed == old(service.closed) + (if old(service.socket).Some? then [old(service.socket).value.id] else [])
      ensures service.sent == old(service.sent)
      ensures handshake.IoThrew? ==> service.socket.None? && service.openCount == old(service.openCount)
      ensures !handshake.IoThrew? ==>
                && service.socket == Some(Socket(old(service.openCount), handshake.Established?, ResolveOptions(service.options), []))
                && service.openCount == old(service.openCount) + 1
    {
      var _ := service.On("connect", onConnect);
      var _ := service.On("disconnect", onDisconnect);
      var _ := service.On("connect_error", onError);
      Connect(handshake);
    }

    /** The unmount cleanup: the hook's `disconnect`. */
    method Unmount()
      requires Valid()
      modifies this, service
      ensures Valid()
      ensures !isConnected && error == old(error) && service.socket.None?
      ensures service.closed == old(service.closed) + (if old(service.socket).Some? then [old(service.socket).value.id] else [])
      ensures service.listeners == old(service.listeners) && service.sent == old(service.sent)
      ensures service.openCount == old(service.openCount)
    {
      Disconnect();
    }

    /** The 'connect' status listener. */
    method HandleConnect()
      modifies this
      ensures isConnected && error == old(error)
    {
      isConnected := true;
    }

    /** The 'disconnect' status listener. */
    method HandleDisconnect()
      modifies this
      ensures !isConnected && error == old(error)
    {
      isConnected := false;
    }

    /** The 'connect_error' status listener. */
    method HandleError(err: Thrown)
      modifies this
      ensures error == Some(err) && isConnected == old(isConnected)
    {
      error := Some(err);
    }
  }

  lemma {:induction false} CallCountAppend(a: seq<Invocation>, b: seq<Invocation>, cb: Callback)
    ensures CallCount(a + b, cb) == CallCount(a, cb) + CallCount(b, cb)
    decreases |a|
  {
    if a == [] {
      assert a + b == b;
    } else {
      assert (a + b)[1..] == a[1..] + b;
      CallCountAppend(a[1..], b, cb);
    }
  }

  lemma {:induction false} CallCountAbsent(log: seq<Invocation>, cb: Callback)
    requires forall i :: 0 <= i < |log| ==> log[i].callback != cb
    ensures CallCount(log, cb) == 0
    decreases |log|
  {
    if log != [] {
      CallCountAbsent(log[1..], cb);
    }
  }

  lemma {:induction false} CallCountPresent(log: seq<Invocation>, cb: Callback, k: nat)
    requires k < |log| && log[k].callback == cb
    ensures CallCount(log, cb) >= 1
    decreases |log|
  {
    if k > 0 {
      CallCountPresent(log[1..], cb, k - 1);
    }
  }

  /** With no attachment to throw, the socket's dispatch reaches every attached callback. */
  lemma NothingThrownReachesAll(cbs: seq<Callback>, data: Payload)
    ensures |UntilThrow(cbs, data, {})| == |cbs|
  {
  }

  /**
   * A 'connect', 'disconnect' or 'connect_error' arriving on a socket with no
   * attachments reaches no callback: those names are not relayed to the registry.
   */
  lemma StatusEventsMissUnattachedSocket(reg: Registry, event: string, data: Payload, failing: set<Callback>)
    requires event in {"connect", "disconnect", "connect_error"}
    ensures Arrival(reg, [], event, data, failing) == []
  {
  }

  /**
   * A callback subscribed to a relayed event while a socket exists sits both in
   * the registry and on the socket, so one arrival calls it twice.
   */
  lemma SubscribedWithSocketCalledTwice(reg: Registry, direct: seq<Attachment>, event: string, data: Payload, cb: Callback)
    requires Valid(reg) && event in RelayedEvents
    requires cb in Subscribers(reg, event) && Attachment(event, cb) in direct
    ensures CallCount(Arrival(reg, direct, event, data, {}), cb) >= 2
  {
    var relayed := Deliveries(reg, event, data, {});
    var attached := Attached(direct, event);
    var own := UntilThrow(attached, data, {});
    CallCountAppend(relayed, own, cb);
    DispatchCallsEachOnce(reg, event, data, {}, cb);
    NothingThrownReachesAll(attached, data);
    var k :| 0 <= k < |attached| && attached[k] == cb;
    CallCountPresent(own, cb, k);
  }

  /** `off` on a socket holding two fresh copies of an attachment removes the first of them. */
  lemma DetachFirstOfTwo(prefix: seq<Attachment>, a: Attachment)
    requires a !in prefix
    ensures Detach(prefix + [a] + [a], a) == prefix + [a]
  {
    var direct := prefix + [a] + [a];
    var k := DetachRemovesFirstMatch(direct, a);
    assert k == |prefix|;
    assert direct[..k] + direct[k + 1..] == prefix + [a];
  }

  /** A callback attached once, after callbacks other than itself, is called once when nothing throws. */
  lemma {:induction false} CalledOnceAtEnd(own: seq<Callback>, data: Payload, cb: Callback)
    requires cb !in own
    ensures CallCount(UntilThrow(own + [cb], data, {}), cb) == 1
  {
    var run := UntilThrow(own + [cb], data, {});
    NothingThrownReachesAll(own + [cb], data);
    assert run == run[..|own|] + [run[|own|]];
    CallCountAppend(run[..|own|], [run[|own|]], cb);
    CallCountAbsent(run[..|own|], cb);
    assert CallCount([run[|own|]], cb) == 1;
  }

  /**
   * Subscribing one callback twice while a socket exists leaves one registry
   * entry but two attachments on the socket. The unsubscribe handle clears the
   * registry entry and detaches only the first attachment, so each relayed
   * arrival still calls the callback once.
   */
  lemma DoubleSubscribeOneUnsubscribeStillCalled(reg: Registry, sock: Socket, event: string, data: Payload, cb: Callback)
    requires Valid(reg) && event in RelayedEvents
    requires Attachment(event, cb) !in sock.direct
    ensures var a := Attachment(event, cb);
            var twice := Attach(Attach(sock, a), a);
            var left := Unregister(Register(Register(reg, event, cb), event, cb), event, cb);
            CallCount(Arrival(left, Detach(twice.direct, a), event, data, {}), cb) == 1
  {
    var a := Attachment(event, cb);
    assert Attach(Attach(sock, a), a).direct == sock.direct + [a] + [a];
    DetachFirstOfTwo(sock.direct, a);
    AttachedAppend(sock.direct, a);
    CalledOnceAtEnd(Attached(sock.direct, event), data, cb);
    var twiceReg := Register(Register(reg, event, cb), event, cb);
    UnsubscribedNeverCalled(twiceReg, event, data, {}, cb);
    var left := Unregister(twiceReg, event, cb);
    CallCountAppend(Deliveries(left, event, data, {}), UntilThrow(Attached(sock.direct + [a], event), data, {}), cb);
  }

  /** A subscribed callback not attached to the socket is called exactly once per relayed arrival. */
  lemma SubscribedWithoutAttachmentCalledOnce(reg: Registry, direct: seq<Attachment>, event: string, data: Payload, failing: set<Callback>, cb: Callback)
    requires Valid(reg) && event in RelayedEvents
    requires cb in Subscribers(reg, event) && Attachment(event, cb) !in direct
    ensures CallCount(Arrival(reg, direct, event, data, failing), cb) == 1
  {
    var relayed := Deliveries(reg, event, data, failing);
    var own := UntilThrow(Attached(direct, event), data, failing);
    CallCountAppend(relayed, own, cb);
    DispatchCallsEachOnce(reg, event, data, failing, cb);
    CallCountAbsent(own, cb);
  }
}
