/** The inbound half of the client: how one websocket frame is classified
    and which callbacks it reaches, in which order.

    `JSON.parse` is not modelled; its result is given as a `Parsed` value
    beside the raw frame text. A callback is an opaque handle; whether it
    throws on this frame is given by the set `throwing`. */
module Dispatch {
  import opened Registry
  import opened Uuid

  /** The outcome of `JSON.parse(e.data)`: a parse failure, a value that is
      not an object (a number, a string, `null`, an array, ...), or an
      object, of which only the presence of the `event` and `uuid` fields
      and their values matter. A `uuid` value is used as a property key, so
      it is kept as the string it converts to. */
  datatype Parsed =
    | ParseError
    | NonObject
    | Obj(hasEvent: bool, hasUuid: bool, uuid: string, event: string)

  /** The three shapes of an inbound message. */
  datatype Kind = ResourceUpdate(uuid: string, event: string) | SystemEvent(event: string) | Unclassified

  /** The priority cascade of `dispatchWebSocketMessage`: `event` and `uuid`
      first, then `event` alone, then everything else. */
  function Classify(m: Parsed): (k: Kind)
    ensures k.ResourceUpdate? <==> m.Obj? && m.hasEvent && m.hasUuid
    ensures k.SystemEvent? <==> m.Obj? && m.hasEvent && !m.hasUuid
    ensures k.Unclassified? <==> !m.Obj? || !m.hasEvent
    ensures k.ResourceUpdate? ==> k.uuid == m.uuid && k.event == m.event
    ensures k.SystemEvent? ==> k.event == m.event
  {
    match m
    case Obj(hasEvent, hasUuid, uuid, event) =>
      if hasEvent && hasUuid then ResourceUpdate(uuid, event)
      else if hasEvent then SystemEvent(event)
      else Unclassified
    case _ => Unclassified
  }

  /** One callback invocation with its arguments. */
  datatype Call =
    | ResourceCall(cb: CallbackId, uuid: string, event: string)  // callbacks[j].call(uuid, ev)
    | EventCall(cb: CallbackId, event: string)                   // callbacks[cb](ev)
    | GenericCall(cb: CallbackId, data: string)                  // callbacks[cb](e.data)

  /** The invocations of one handler, and whether it ended by re-raising. */
  datatype Delivery = Delivery(calls: seq<Call>, raised: bool)

  /** Reference definition: the callbacks a resource update is meant for,
      the entries without `not_send_me`, in registration order. */
  function Receivers(es: seq<Entry>): seq<CallbackId>
    decreases |es|
  {
    if es == [] then []
    else (if es[0].notSendMe then [] else [es[0].call]) + Receivers(es[1..])
  }

  /** The loop of `handleDBWebSocketMessage`: entries in order, those with
      `not_send_me` skipped, and the first callback that throws ends the
      loop by re-raising. */
  function Deliver(es: seq<Entry>, uuid: string, event: string, throwing: set<CallbackId>): (d: Delivery)
    ensures |d.calls| <= |es|
    ensures d.raised ==> d.calls != [] && d.calls[|d.calls| - 1].cb in throwing
    decreases |es|
  {
    if es == [] then Delivery([], false)
    else if es[0].notSendMe then Deliver(es[1..], uuid, event, throwing)
    else if es[0].call in throwing then Delivery([ResourceCall(es[0].call, uuid, event)], true)
    else
      var rest := Deliver(es[1..], uuid, event, throwing);
      Delivery([ResourceCall(es[0].call, uuid, event)] + rest.calls, rest.raised)
  }

  /** Resource delivery calls a prefix of the receivers, in registration
      order, each with the update's identifier and event; all of them when
      no callback re-raised. */
  lemma {:induction false} DeliverCallsPrefix(es: seq<Entry>, uuid: string, event: string,
                                              throwing: set<CallbackId>)
    ensures var d := Deliver(es, uuid, event, throwing);
      var rs := Receivers(es);
      |d.calls| <= |rs| &&
      (forall i :: 0 <= i < |d.calls| ==> d.calls[i] == ResourceCall(rs[i], uuid, event)) &&
      (!d.raised ==> |d.calls| == |rs|)
    decreases |es|
  {
    if es != [] {
      DeliverCallsPrefix(es[1..], uuid, event, throwing);
      if !es[0].notSendMe {
        var rs := Receivers(es);
        assert rs == [es[0].call] + Receivers(es[1..]);
      }
    }
  }

  /** The position of the first receiver that throws, or the number of
      receivers when none does. */
  function FirstThrow(rs: seq<CallbackId>, throwing: set<CallbackId>): (k: nat)
    ensures k <= |rs|
    ensures forall i :: 0 <= i < k ==> rs[i] !in throwing
    ensures k < |rs| ==> rs[k] in throwing
    decreases |rs|
  {
    if rs == [] then 0
    else if rs[0] in throwing then 0
    else
      var k := FirstThrow(rs[1..], throwing);
      assert forall i :: 0 < i <= k ==> rs[i] == rs[1..][i - 1];
      1 + k
  }

  /** Resource delivery runs up to and including the first receiver that
      throws, and re-raises exactly when there is one. */
  lemma {:induction false} DeliverRunsToFirstThrow(es: seq<Entry>, uuid: string, event: string,
                                                   throwing: set<CallbackId>)
    ensures Deliver(es, uuid, event, throwing).raised ==
      (FirstThrow(Receivers(es), throwing) < |Receivers(es)|)
    ensures |Deliver(es, uuid, event, throwing).calls| ==
      if FirstThrow(Receivers(es), throwing) < |Receivers(es)|
      then FirstThrow(Receivers(es), throwing) + 1 else |Receivers(es)|
    decreases |es|
  {
    if es != [] {
      DeliverRunsToFirstThrow(es[1..], uuid, event, throwing);
      var rs, rest := Receivers(es), Receivers(es[1..]);
      if es[0].notSendMe {
        assert rs == rest;
      } else {
        assert rs == [es[0].call] + rest;
        assert rs[1..] == rest;
      }
    }
  }

  /** Resource delivery ends by re-raising exactly when some receiver
      throws. */
  lemma DeliverRaisesIffSomeThrows(es: seq<Entry>, uuid: string, event: string,
                                   throwing: set<CallbackId>)
    ensures Deliver(es, uuid, event, throwing).raised <==>
      exists i :: 0 <= i < |Receivers(es)| && Receivers(es)[i] in throwing
  {
    DeliverRunsToFirstThrow(es, uuid, event, throwing);
    var rs := Receivers(es);
    var k := FirstThrow(rs, throwing);
    if k < |rs| {
      assert rs[k] in throwing;
    }
  }

  /** When resource delivery re-raises, the last callback called is the
      first receiver that throws. */
  lemma DeliverStopsAtFirstThrow(es: seq<Entry>, uuid: string, event: string,
                                 throwing: set<CallbackId>)
    ensures Deliver(es, uuid, event, throwing).raised ==>
      var n := |Deliver(es, uuid, event, throwing).calls|;
      0 < n <= |Receivers(es)| && Receivers(es)[n - 1] in throwing &&
      forall i :: 0 <= i < n - 1 ==> Receivers(es)[i] !in throwing
  {
    DeliverRunsToFirstThrow(es, uuid, event, throwing);
  }

  /** The loops of `handleMetaxEvents` and `handleGenericProtocol`: every
      callback, in list order, whether or not an earlier one threw. */
  function EventCalls(cbs: seq<CallbackId>, event: string): (cs: seq<Call>)
    ensures |cs| == |cbs| && forall i :: 0 <= i < |cbs| ==> cs[i] == EventCall(cbs[i], event)
  {
    seq(|cbs|, i requires 0 <= i < |cbs| => EventCall(cbs[i], event))
  }

  function GenericCalls(cbs: seq<CallbackId>, data: string): (cs: seq<Call>)
    ensures |cs| == |cbs| && forall i :: 0 <= i < |cbs| ==> cs[i] == GenericCall(cbs[i], data)
  {
    seq(|cbs|, i requires 0 <= i < |cbs| => GenericCall(cbs[i], data))
  }

  /** `handleDBWebSocketMessage(e, msg)` as a whole. With no list for the
      identifier, `callbacks` is `undefined` and reading its `length` in the
      assertion before the loop throws a TypeError, so nothing is invoked
      and the handler raises; otherwise the loop over the entries runs. */
  function UpdateDelivery(ls: Listeners, uuid: string, event: string, throwing: set<CallbackId>): (d: Delivery)
    ensures uuid !in ls ==> d.calls == []
    ensures d.raised <==>
      (uuid !in ls || exists i :: 0 <= i < |Receivers(ls[uuid])| && Receivers(ls[uuid])[i] in throwing)
  {
    if uuid !in ls then Delivery([], true)
    else
      DeliverRaisesIffSomeThrows(ls[uuid], uuid, event, throwing);
      Deliver(ls[uuid], uuid, event, throwing)
  }

  /** What one frame does: the invocations in order, and whether the
      resource handler was aborted by a throwing callback. */
  datatype Dispatched = Dispatched(calls: seq<Call>, aborted: bool)

  /** `dispatchWebSocketMessage(e)`. A resource update reaches the entries of
      its identifier. A throw out of the resource handler (a throwing
      callback, or the TypeError for an identifier with no list) is caught
      by the dispatcher, which then runs the generic handler on the raw
      `e.data`, as it does for a parse failure, a non-object or an object
      without `event`. */
  function Route(raw: string, m: Parsed, ls: Listeners, events: seq<CallbackId>,
                 generic: seq<CallbackId>, throwing: set<CallbackId>): (r: Dispatched)
    ensures r.aborted ==> Classify(m).ResourceUpdate?
    ensures Classify(m).ResourceUpdate? ==> (r.aborted <==> UpdateDelivery(ls, m.uuid, m.event, throwing).raised)
  {
    match Classify(m)
    case ResourceUpdate(uuid, event) =>
      var d := UpdateDelivery(ls, uuid, event, throwing);
      if d.raised then Dispatched(d.calls + GenericCalls(generic, raw), true)
      else Dispatched(d.calls, false)
    case SystemEvent(event) => Dispatched(EventCalls(events, event), false)
    case Unclassified => Dispatched(GenericCalls(generic, raw), false)
  }

  /** A frame with both `event` and `uuid` reaches the resource entries of
      that identifier and no system-event callback; the generic callbacks,
      with the raw frame, follow exactly when the resource handler threw:
      the identifier has no list, or one of its callbacks threw. */
  lemma RouteResourceUpdate(raw: string, m: Parsed, ls: Listeners, events: seq<CallbackId>,
                            generic: seq<CallbackId>, throwing: set<CallbackId>)
    requires m.Obj? && m.hasEvent && m.hasUuid
    ensures var r := Route(raw, m, ls, events, generic, throwing);
      var rs := Receivers(EntriesOf(ls, m.uuid));
      (forall i :: 0 <= i < |r.calls| ==> !r.calls[i].EventCall?) &&
      (r.aborted <==> m.uuid !in ls || exists i :: 0 <= i < |rs| && rs[i] in throwing) &&
      (m.uuid !in ls ==> r.calls == GenericCalls(generic, raw)) &&
      (!r.aborted ==>
         |r.calls| == |rs| &&
         forall i :: 0 <= i < |rs| ==> r.calls[i] == ResourceCall(rs[i], m.uuid, m.event)) &&
      (r.aborted && m.uuid in ls ==>
         var k := |r.calls| - |generic|;
         0 < k <= |rs| && rs[k - 1] in throwing &&
         (forall i :: 0 <= i < k - 1 ==> rs[i] !in throwing) &&
         (forall i :: 0 <= i < k ==> r.calls[i] == ResourceCall(rs[i], m.uuid, m.event)) &&
         r.calls[k..] == GenericCalls(generic, raw))
  {
    var r := Route(raw, m, ls, events, generic, throwing);
    if m.uuid in ls {
      var es := ls[m.uuid];
      assert EntriesOf(ls, m.uuid) == es;
      DeliverCallsPrefix(es, m.uuid, m.event, throwing);
      DeliverRaisesIffSomeThrows(es, m.uuid, m.event, throwing);
      DeliverStopsAtFirstThrow(es, m.uuid, m.event, throwing);
      var d := Deliver(es, m.uuid, m.event, throwing);
      if d.raised {
        assert r.calls[|d.calls|..] == GenericCalls(generic, raw);
      }
    } else {
      assert r.calls == [] + GenericCalls(generic, raw);
    }
  }

  /** A frame with `event` and no `uuid` reaches every system-event callback
      in order and nothing else. */
  lemma RouteSystemEvent(raw: string, m: Parsed, ls: Listeners, events: seq<CallbackId>,
                         generic: seq<CallbackId>, throwing: set<CallbackId>)
    requires m.Obj? && m.hasEvent && !m.hasUuid
    ensures var r := Route(raw, m, ls, events, generic, throwing);
      !r.aborted && |r.calls| == |events| &&
      forall i :: 0 <= i < |events| ==> r.calls[i] == EventCall(events[i], m.event)
  {
  }

  /** Every other frame, a parse failure included, reaches every generic
      callback with the raw frame text. */
  lemma RouteUnclassified(raw: string, m: Parsed, ls: Listeners, events: seq<CallbackId>,
                          generic: seq<CallbackId>, throwing: set<CallbackId>)
    requires !m.Obj? || !m.hasEvent
    ensures var r := Route(raw, m, ls, events, generic, throwing);
      !r.aborted && |r.calls| == |generic| &&
      forall i :: 0 <= i < |generic| ==> r.calls[i] == GenericCall(generic[i], raw)
  {
  }

  /** The cascade is strict: one frame never reaches both the resource
      entries and the system-event callbacks, and generic callbacks see the
      raw frame whenever they are reached. */
  lemma RouteIsExclusive(raw: string, m: Parsed, ls: Listeners, events: seq<CallbackId>,
                         generic: seq<CallbackId>, throwing: set<CallbackId>)
    ensures var r := Route(raw, m, ls, events, generic, throwing);
      (forall i, j :: 0 <= i < |r.calls| && 0 <= j < |r.calls| ==>
         !(r.calls[i].ResourceCall? && r.calls[j].EventCall?)) &&
      (forall i :: 0 <= i < |r.calls| && r.calls[i].GenericCall? ==> r.calls[i].data == raw)
  {
    var r := Route(raw, m, ls, events, generic, throwing);
    match Classify(m)
    case ResourceUpdate(uuid, event) =>
      var d := UpdateDelivery(ls, uuid, event, throwing);
      if uuid in ls {
        DeliverCallsPrefix(ls[uuid], uuid, event, throwing);
      }
      assert forall i :: 0 <= i < |d.calls| ==> r.calls[i] == d.calls[i] && d.calls[i].ResourceCall?;
      if d.raised {
        assert forall i :: |d.calls| <= i < |r.calls| ==>
          r.calls[i] == GenericCall(generic[i - |d.calls|], raw);
      }
    case SystemEvent(event) =>
    case Unclassified =>
  }

  /** Identifiers are property keys, compared exactly: when a valid
      identifier is registered, an update naming it in upper case (which
      also passes the identifier check) reaches none of its entries unless
      the identifier is already in upper case; the lookup finds no list,
      the resource handler throws, and the frame goes to the generic
      callbacks instead. */
  lemma UpperCaseUpdateMissesListener(u: string, cb: CallbackId, event: string, raw: string,
                                      generic: seq<CallbackId>, throwing: set<CallbackId>)
    requires Upper(u) != u
    ensures IsValidUuid(u) ==> IsValidUuid(Upper(u))
    ensures var ls := RegisterStep(map[], u, cb, false, true).listeners;
      Route(raw, Obj(true, true, Upper(u), event), ls, [], generic, throwing) ==
        Dispatched(GenericCalls(generic, raw), true)
  {
    UpperKeepsValidity(u);
    var ls := RegisterStep(map[], u, cb, false, true).listeners;
    assert ls.Keys == {u};
    assert [] + GenericCalls(generic, raw) == GenericCalls(generic, raw);
  }
}
