/** The `Metax` client object: its three registries, its connection
    settings and the handler slots of its websocket, updated in place by its
    methods. Each asynchronous method is one atomic step; the outcome of a
    remote request is a parameter (`remoteOk`), and the ghost field `log`
    records the remote requests and the local key changes in the order they
    happen. */
module Client {
  import opened Outcomes
  import opened Registry
  import opened Dispatch
  import opened Connection
  import opened Lifecycle

  class Metax {
    var listeners: Listeners           // mListeners
    var events: seq<CallbackId>        // mEvents
    var generic: seq<CallbackId>       // mGenericProtocolListeners
    var settings: Option<Settings>     // None while the members are notDefinedYet
    var socketUrl: string              // the address the current socket was opened with
    var phase: Phase                   // the current socket's state
    var onMessage: bool                // whether onmessage dispatches frames
    var onError: Handler
    var onClose: Handler
    var promise: Promise               // the promise of the latest connect
    var timers: nat                    // reconnection timers scheduled and not yet fired
    ghost var log: seq<Action>

    ghost function WireState(): Wire
      reads this
    {
      Wire(phase, onMessage, onError, onClose, promise, timers)
    }

    ghost predicate Valid()
      reads this
    {
      Wellformed(listeners) && Consistent(WireState()) && (phase != NoSocket ==> settings.Some?)
    }

    constructor ()
      ensures Valid() && Coherent(listeners, log)
      ensures listeners == map[] && events == [] && generic == [] && settings == None
      ensures WireState() == Initial && log == []
    {
      listeners, events, generic := map[], [], [];
      settings, socketUrl := None, "";
      phase, onMessage, onError, onClose, promise, timers := NoSocket, false, Unset, Unset, NoPromise, 0;
      log := [];
    }

    // ----- Resource listener registry

    method RegisterListener(uuid: string, cb: CallbackId, notSendMe: bool, remoteOk: bool)
      returns (r: Outcome)
      requires Valid()
      modifies this`listeners, this`log
      ensures Valid()
      ensures var st := RegisterStep(old(listeners), uuid, cb, notSendMe, remoteOk);
        listeners == st.listeners && log == old(log) + st.actions && r == st.outcome
      ensures Coherent(old(listeners), old(log)) ==> Coherent(listeners, log)
    {
      ghost var st := RegisterStep(listeners, uuid, cb, notSendMe, remoteOk);
      if Coherent(listeners, log) {
        RegisterKeepsCoherent(listeners, log, uuid, cb, notSendMe, remoteOk);
      }
      if uuid !in listeners {
        log := log + [Remote(RemoteCall(Register, uuid, remoteOk))];
        if !remoteOk {
          return Failed(RegisterRequestFailed(uuid));
        }
        listeners := listeners[uuid := []];
        log := log + [KeyCreated(uuid)];
      }
      listeners := listeners[uuid := listeners[uuid] + [Entry(cb, notSendMe)]];
      r := Done;
      assert listeners == st.listeners && log == old(log) + st.actions;
    }

    method UnregisterListener(uuid: string, cb: CallbackId, remoteOk: bool) returns (r: Outcome)
      requires Valid()
      modifies this`listeners, this`log
      ensures Valid()
      ensures var st := UnregisterStep(old(listeners), uuid, cb, remoteOk);
        listeners == st.listeners && log == old(log) + st.actions && r == st.outcome
      ensures Coherent(old(listeners), old(log)) ==> Coherent(listeners, log)
    {
      ghost var ls0, log0 := listeners, log;
      if uuid !in listeners {
        r := Failed(NoListenerList(uuid));
      } else if |listeners[uuid]| == 1 {
        log := log + [Remote(RemoteCall(Unregister, uuid, remoteOk))];
        if remoteOk {
          listeners := listeners - {uuid};
          log := log + [KeyDeleted(uuid)];
          r := Done;
        } else {
          r := Failed(UnregisterRequestFailed(uuid));
        }
      } else {
        var callbacks := listeners[uuid];
        var j := 0;
        while j < |callbacks|
          invariant 0 <= j <= |callbacks|
          invariant listeners == ls0
          invariant forall k :: 0 <= k < j ==> callbacks[k].call != cb
        {
          if cb == callbacks[j].call {
            listeners := listeners[uuid := callbacks[..j] + callbacks[j + 1..]];
            break;
          }
          j := j + 1;
        }
        RemoveFirstCallAt(callbacks, cb, j);
        r := Done;
      }
      if Coherent(ls0, log0) {
        UnregisterKeepsCoherent(ls0, log0, uuid, cb, remoteOk);
      }
    }

    // ----- System-event and generic-protocol registries

    method RegisterMetaxEvents(cb: CallbackId)
      modifies this`events
      ensures events == Append(old(events), cb)
    {
      events := events + [cb];
    }

    method UnregisterMetaxEvents(cb: CallbackId)
      modifies this`events
      ensures events == Without(old(events), cb)
    {
      var i := IndexOf(events, cb);
      if -1 != i {
        events := events[..i] + events[i + 1..];
      }
    }

    method RegisterGenericProtocol(cb: CallbackId)
      modifies this`generic
      ensures generic == Append(old(generic), cb)
    {
      generic := generic + [cb];
    }

    /** Reads the undefined member `GenericProtocolCallBack` instead of the
        list: the call to its `indexOf` throws, so the promise always
        rejects and the list is never changed. */
    method UnregisterGenericProtocol(cb: CallbackId) returns (r: Outcome)
      ensures r == Failed(UndefinedRegistry)
    {
      r := Failed(UndefinedRegistry);
    }

    // ----- Message dispatch

    method HandleDBWebSocketMessage(uuid: string, event: string, throwing: set<CallbackId>)
      returns (calls: seq<Call>, raised: bool)
      ensures Delivery(calls, raised) == UpdateDelivery(listeners, uuid, event, throwing)
    {
      calls, raised := [], false;
      if uuid !in listeners {
        // callbacks.length on undefined throws before the loop
        raised := true;
        return;
      }
      var callbacks := listeners[uuid];
      var j := 0;
      while j < |callbacks|
        invariant 0 <= j <= |callbacks|
        invariant var rest := Deliver(callbacks[j..], uuid, event, throwing);
          Deliver(callbacks, uuid, event, throwing) == Delivery(calls + rest.calls, rest.raised)
      {
        assert callbacks[j..][1..] == callbacks[j + 1..];
        if !callbacks[j].notSendMe {
          calls := calls + [ResourceCall(callbacks[j].call, uuid, event)];
          if callbacks[j].call in throwing {
            // logged, then re-raised out of the loop
            raised := true;
            return;
          }
        }
        j := j + 1;
      }
      assert callbacks[j..] == [];
    }

    /** A throwing callback is caught and logged inside the loop, so
        `throwing` does not change which callbacks are called. */
    method HandleMetaxEvents(event: string, throwing: set<CallbackId>) returns (calls: seq<Call>)
      ensures |calls| == |events|
      ensures forall i :: 0 <= i < |events| ==> calls[i] == EventCall(events[i], event)
    {
      var callbacks := events;
      calls := [];
      var j := 0;
      while j < |callbacks|
        invariant 0 <= j <= |callbacks| && |calls| == j
        invariant forall k :: 0 <= k < j ==> calls[k] == EventCall(callbacks[k], event)
      {
        calls := calls + [EventCall(callbacks[j], event)];
        j := j + 1;
      }
    }

    method HandleGenericProtocol(data: string, throwing: set<CallbackId>) returns (calls: seq<Call>)
      ensures |calls| == |generic|
      ensures forall i :: 0 <= i < |generic| ==> calls[i] == GenericCall(generic[i], data)
    {
      var callbacks := generic;
      calls := [];
      var j := 0;
      while j < |callbacks|
        invariant 0 <= j <= |callbacks| && |calls| == j
        invariant forall k :: 0 <= k < j ==> calls[k] == GenericCall(callbacks[k], data)
      {
        calls := calls + [GenericCall(callbacks[j], data)];
        j := j + 1;
      }
    }

    /** `raw` is the frame's `e.data`, `m` what `JSON.parse` makes of it. */
    method DispatchWebSocketMessage(raw: string, m: Parsed, throwing: set<CallbackId>)
      returns (d: Dispatched)
      ensures d == Route(raw, m, listeners, events, generic, throwing)
    {
      if m.Obj? && m.hasEvent && m.hasUuid {
        var calls, raised := HandleDBWebSocketMessage(m.uuid, m.event, throwing);
        if !raised {
          return Dispatched(calls, false);
        }
        // the re-raised error is caught here and the frame goes on to the generic handler
        var more := HandleGenericProtocol(raw, throwing);
        return Dispatched(calls + more, true);
      } else if m.Obj? && m.hasEvent {
        var calls := HandleMetaxEvents(m.event, throwing);
        return Dispatched(calls, false);
      }
      var calls := HandleGenericProtocol(raw, throwing);
      d := Dispatched(calls, false);
    }

    // ----- Connection

    method SetupConnectionParameters(h: string, p: nat, e: bool, t: string, s: bool)
      modifies this`settings, this`listeners
      ensures settings == Some(Setup(Params(h, p, e, t, s)))
      ensures listeners == map[]
    {
      settings := Some(Setup(Params(h, p, e, t, s)));
      listeners := map[];
    }

    method CreateWebsocket()
      requires Valid() && settings.Some?
      modifies this`socketUrl, this`phase, this`onMessage, this`onError, this`onClose, this`promise
      ensures Valid()
      ensures WireState() == Create(old(WireState())) && socketUrl == SocketUrl(settings.value)
    {
      socketUrl := settings.value.wsPath + "?token=" + settings.value.params.token;
      phase, onMessage, onError, onClose := Opening, false, Reject, Reject;
      promise := Pending;
    }

    method Connect(h: string := "localhost", p: nat := 8001, e: bool := true, t: string := "",
                   s: bool := false)
      requires Valid()
      modifies this
      ensures Valid()
      ensures settings == Some(Setup(Params(h, p, e, t, s))) && listeners == map[]
      ensures WireState() == Create(old(WireState())) && socketUrl == SocketUrl(settings.value)
      ensures events == old(events) && generic == old(generic) && log == old(log)
    {
      SetupConnectionParameters(h, p, e, t, s);
      CreateWebsocket();
    }

    method Disconnect() returns (r: Outcome)
      requires Valid()
      modifies this`onClose, this`phase
      ensures Valid()
      ensures var d := Lifecycle.Disconnect(old(WireState()));
        WireState() == d.wire && (r == Done <==> d.ok) && (!d.ok ==> r == Failed(NoWebsocket))
    {
      if phase == NoSocket {
        return Failed(NoWebsocket);
      }
      onClose := Ignore;
      if phase == Opening || phase == Open {
        phase := Closing;
      }
      r := Done;
    }

    /** The socket's open event runs `onopen`, which installs the working
        handlers and resolves the connect promise. */
    method SocketOpened()
      requires Valid()
      modifies this`phase, this`onMessage, this`onError, this`onClose, this`promise
      ensures Valid() && WireState() == Lifecycle.SocketOpened(old(WireState()))
    {
      if phase == Opening {
        phase := Open;
        onMessage, onError, onClose := true, Reconnect, Reconnect;
        promise := Settle(promise, Resolved);
      }
    }

    method SocketErrored()
      requires Valid()
      modifies this`phase, this`promise, this`timers
      ensures Valid() && WireState() == Lifecycle.SocketErrored(old(WireState()))
    {
      if phase == Opening || phase == Open || phase == Closing {
        phase := Closing;
        match onError {
          case Reject => promise := Settle(promise, Rejected);
          case Reconnect => HandleWebSocketError();
          case _ =>
        }
      }
    }

    method SocketClosed()
      requires Valid()
      modifies this`phase, this`promise, this`timers
      ensures Valid() && WireState() == Lifecycle.SocketClosed(old(WireState()))
    {
      if phase == Opening || phase == Open || phase == Closing {
        phase := Closed;
        match onClose {
          case Reject => promise := Settle(promise, Rejected);
          case Reconnect => HandleWebSocketClose();
          case _ =>
        }
      }
    }

    method HandleWebSocketClose()
      modifies this`timers
      ensures timers == old(timers) + 1
    {
      ScheduleReconnect();
    }

    method HandleWebSocketError()
      modifies this`timers
      ensures timers == old(timers) + 1
    {
      ScheduleReconnect();
    }

    /** Starts one timer; its delay argument sits inside the arrow body, so
        the timer has no delay of its own. */
    method ScheduleReconnect()
      modifies this`timers
      ensures timers == old(timers) + 1
    {
      timers := timers + 1;
    }

    /** A reconnection timer fires: `connect` with four arguments. */
    method ReconnectTimerFired()
      requires Valid() && timers > 0
      modifies this
      ensures Valid()
      ensures settings == Some(Setup(ReconnectParams(old(settings).value))) && listeners == map[]
      ensures WireState() == TimerFired(old(WireState())) && socketUrl == SocketUrl(settings.value)
      ensures events == old(events) && generic == old(generic) && log == old(log)
    {
      timers := timers - 1;
      var st := settings.value;
      // mEncryption === '1' compares the number 1 or 0 with a string: always false;
      // mProtocol === 'https' lands in the token position; s keeps its default
      Connect(st.params.host, st.params.port, false, if st.protocol == "https" then "true" else "false");
    }
  }
}
