/** The connection lifecycle as the websocket's handler slots make it.

    `createWebsocket` opens a socket whose `onerror` and `onclose` reject the
    pending `connect` promise and whose `onopen` installs the working
    handlers: `onmessage` dispatches, `onerror` and `onclose` schedule a
    reconnection. `disconnect` replaces `onclose` (and only `onclose`) with
    a no-op before closing. A reconnection timer, when it fires, calls
    `connect` again. Only the current socket is modelled. */
module Lifecycle {

  /** Where the current socket is: none yet (`mWebsocket` is still the
      placeholder 0), opening, open, closing (a close event is still to
      come) or closed. */
  datatype Phase = NoSocket | Opening | Open | Closing | Closed

  /** What an `onerror` or `onclose` slot does when the event arrives. */
  datatype Handler =
    | Unset      // no socket, no handler
    | Reject     // e => reject(e): fails the pending connect
    | Reconnect  // handleWebSocketError / handleWebSocketClose: scheduleReconnect()
    | Ignore     // () => {}, installed by disconnect

  /** The state of the promise returned by the latest `connect`. */
  datatype Promise = NoPromise | Pending | Resolved | Rejected

  datatype ConnState = Disconnected | Connecting | Connected | ReconnectPending

  /** The socket's phase, its handler slots, the latest connect promise and
      the number of reconnection timers not yet fired. */
  datatype Wire = Wire(phase: Phase, onMessage: bool, onError: Handler, onClose: Handler,
                       promise: Promise, timers: nat)

  const Initial: Wire := Wire(NoSocket, false, Unset, Unset, NoPromise, 0)

  /** The four connection states, read off the wire. */
  function State(w: Wire): ConnState {
    if w.phase == Opening then Connecting
    else if w.phase == Open then Connected
    else if w.timers > 0 then ReconnectPending
    else Disconnected
  }

  /** Which handler configurations occur in each phase. */
  ghost predicate Consistent(w: Wire) {
    && (w.phase == NoSocket ==> w == Initial)
    && (w.phase == Opening ==> !w.onMessage && w.onError == Reject && w.onClose == Reject &&
                               w.promise == Pending)
    && (w.phase == Open ==> w.onMessage && w.onError == Reconnect && w.onClose == Reconnect &&
                            w.promise == Resolved)
    && (w.phase != NoSocket ==> w.onError != Unset && w.onClose != Unset)
  }

  /** A promise settles once; later resolve or reject calls do nothing. */
  function Settle(p: Promise, outcome: Promise): Promise {
    if p == Pending then outcome else p
  }

  /** The effect of running one `onerror` or `onclose` handler. */
  function RunHandler(h: Handler, w: Wire): (r: Wire)
    ensures r.phase == w.phase && r.onMessage == w.onMessage
    ensures r.onError == w.onError && r.onClose == w.onClose
    ensures r.timers == if h == Reconnect then w.timers + 1 else w.timers
    ensures r.promise == if h == Reject then Settle(w.promise, Rejected) else w.promise
  {
    match h
    case Reject => w.(promise := Settle(w.promise, Rejected))
    case Reconnect => w.(timers := w.timers + 1)
    case _ => w
  }

  /** `createWebsocket()`: a new socket, opening, with the rejecting
      handlers, and a new pending promise. Timers already scheduled stay. */
  function Create(w: Wire): (r: Wire)
    ensures Consistent(r) && State(r) == Connecting
    ensures r.promise == Pending && r.timers == w.timers
  {
    Wire(Opening, false, Reject, Reject, Pending, w.timers)
  }

  datatype SocketEvent = OpenEvent | ErrorEvent | CloseEvent

  /** The socket's `onopen` handler, which only an opening socket fires. */
  function SocketOpened(w: Wire): (r: Wire)
    ensures w.phase == Opening ==>
      State(r) == Connected && r.onMessage && r.onError == Reconnect && r.onClose == Reconnect &&
      r.promise == Settle(w.promise, Resolved) && r.timers == w.timers
    ensures w.phase != Opening ==> r == w
  {
    if w.phase == Opening
    then w.(phase := Open, onMessage := true, onError := Reconnect, onClose := Reconnect,
            promise := Settle(w.promise, Resolved))
    else w
  }

  /** An error event: the socket is failing and a close event follows. */
  function SocketErrored(w: Wire): (r: Wire)
    ensures w.phase in {Opening, Open, Closing} ==>
      r.phase == Closing && r.onMessage == w.onMessage && r.onError == w.onError && r.onClose == w.onClose &&
      r.timers == (if w.onError == Reconnect then w.timers + 1 else w.timers) &&
      r.promise == (if w.onError == Reject then Settle(w.promise, Rejected) else w.promise)
    ensures w.phase !in {Opening, Open, Closing} ==> r == w
  {
    if w.phase in {Opening, Open, Closing}
    then RunHandler(w.onError, w.(phase := Closing))
    else w
  }

  /** A close event: the socket is closed. */
  function SocketClosed(w: Wire): (r: Wire)
    ensures w.phase in {Opening, Open, Closing} ==>
      r.phase == Closed && State(r) != Connected && r.onMessage == w.onMessage &&
      r.onError == w.onError && r.onClose == w.onClose &&
      r.timers == (if w.onClose == Reconnect then w.timers + 1 else w.timers) &&
      r.promise == (if w.onClose == Reject then Settle(w.promise, Rejected) else w.promise)
    ensures w.phase !in {Opening, Open, Closing} ==> r == w
  {
    if w.phase in {Opening, Open, Closing} then RunHandler(w.onClose, w.(phase := Closed))
    else w
  }

  function Apply(w: Wire, e: SocketEvent): Wire {
    match e
    case OpenEvent => SocketOpened(w)
    case ErrorEvent => SocketErrored(w)
    case CloseEvent => SocketClosed(w)
  }

  function RunEvents(w: Wire, es: seq<SocketEvent>): Wire
    decreases |es|
  {
    if es == [] then w else RunEvents(Apply(w, es[0]), es[1..])
  }

  /** `disconnect()`: with no socket, setting `onclose` on the placeholder 0
      throws and the promise rejects (`ok` false); otherwise `onclose`
      becomes a no-op and a live socket starts closing. */
  datatype Disconnection = Disconnection(wire: Wire, ok: bool)

  function Disconnect(w: Wire): (d: Disconnection)
    ensures d.ok <==> w.phase != NoSocket
    ensures !d.ok ==> d.wire == w
    ensures d.ok ==> d.wire.onClose == Ignore && d.wire.onError == w.onError && d.wire.timers == w.timers
    ensures d.ok ==> d.wire.onMessage == w.onMessage && d.wire.promise == w.promise
    ensures d.ok ==> d.wire.phase == (if w.phase in {Opening, Open} then Closing else w.phase)
  {
    if w.phase == NoSocket then Disconnection(w, false)
    else Disconnection(w.(onClose := Ignore,
                          phase := if w.phase in {Opening, Open} then Closing else w.phase), true)
  }

  /** A reconnection timer fires and calls `connect`, which opens a new socket. */
  function TimerFired(w: Wire): (r: Wire)
    requires w.timers > 0
    ensures Consistent(r) && State(r) == Connecting
    ensures r.promise == Pending && r.timers == w.timers - 1
  {
    Create(w.(timers := w.timers - 1))
  }

  // ----- Properties of the state machine

  /** Every step keeps the handler configuration consistent with the phase. */
  lemma StepsKeepConsistent(w: Wire, e: SocketEvent)
    requires Consistent(w)
    ensures Consistent(Apply(w, e)) && Consistent(Create(w)) && Consistent(Disconnect(w).wire)
    ensures w.timers > 0 ==> Consistent(TimerFired(w))
  {
  }

  lemma {:induction false} RunKeepsConsistent(w: Wire, es: seq<SocketEvent>)
    requires Consistent(w)
    ensures Consistent(RunEvents(w, es))
    decreases |es|
  {
    if es != [] {
      StepsKeepConsistent(w, es[0]);
      RunKeepsConsistent(Apply(w, es[0]), es[1..]);
    }
  }

  /** The transitions of the four-state diagram. */
  lemma Transitions(w: Wire)
    requires Consistent(w)
    ensures State(Create(w)) == Connecting
    ensures State(w) == Connecting ==> State(SocketOpened(w)) == Connected && SocketOpened(w).promise == Resolved
    ensures State(w) == Connected ==>
      State(SocketClosed(w)) == ReconnectPending && SocketClosed(w).timers == w.timers + 1 &&
      State(SocketErrored(w)) == ReconnectPending && SocketErrored(w).timers == w.timers + 1
    ensures State(w) == Connecting ==>
      SocketErrored(w).promise == Rejected && SocketErrored(w).timers == w.timers &&
      SocketClosed(w).promise == Rejected && SocketClosed(w).timers == w.timers
    ensures w.timers > 0 ==> State(TimerFired(w)) == Connecting
    ensures State(w) == Connected && w.timers == 0 ==> State(Disconnect(w).wire) == Disconnected
  {
  }

  /** A socket that never opens never schedules a reconnection: whatever
      error and close events it sees, the timers stay as they were and the
      connect promise ends up rejected or still pending. In particular a
      reconnection attempt that fails schedules no further attempt. */
  lemma {:induction false} UnopenedNeverReconnects(w: Wire, es: seq<SocketEvent>)
    requires w.onError != Reconnect && w.onClose != Reconnect && w.phase != Open
    requires w.promise in {Pending, Rejected}
    requires OpenEvent !in es
    ensures RunEvents(w, es).timers == w.timers
    ensures RunEvents(w, es).promise in {Pending, Rejected}
    decreases |es|
  {
    if es != [] {
      assert es[0] != OpenEvent;
      assert OpenEvent !in es[1..];
      UnopenedNeverReconnects(Apply(w, es[0]), es[1..]);
    }
  }

  /** Once settled, the connect promise keeps its value whatever the socket
      does. */
  lemma {:induction false} SettlesOnce(w: Wire, es: seq<SocketEvent>)
    requires w.promise != Pending
    ensures RunEvents(w, es).promise == w.promise
    decreases |es|
  {
    if es != [] {
      SettlesOnce(Apply(w, es[0]), es[1..]);
    }
  }

  /** After `disconnect`, close events schedule no reconnection, however many
      arrive. */
  lemma {:induction false} DisconnectSilencesClose(w: Wire, es: seq<SocketEvent>)
    requires w.onClose == Ignore
    requires forall i :: 0 <= i < |es| ==> es[i] == CloseEvent
    ensures RunEvents(w, es).timers == w.timers
    ensures RunEvents(w, es).onClose == Ignore
    decreases |es|
  {
    if es != [] {
      DisconnectSilencesClose(Apply(w, es[0]), es[1..]);
    }
  }

  /** `disconnect` leaves `onerror` in place: on a connected socket an error
      after disconnecting still schedules a reconnection. */
  lemma ErrorAfterDisconnectReconnects(w: Wire)
    requires Consistent(w) && State(w) == Connected
    ensures SocketErrored(Disconnect(w).wire).timers == w.timers + 1
  {
  }

  /** An open socket that fails with an error and then closes schedules two
      reconnection timers, one per handler. */
  lemma ErrorThenCloseSchedulesTwice(w: Wire)
    requires Consistent(w) && State(w) == Connected
    ensures RunEvents(w, [ErrorEvent, CloseEvent]).timers == w.timers + 2
  {
    assert [ErrorEvent, CloseEvent][1..] == [CloseEvent];
  }
}
