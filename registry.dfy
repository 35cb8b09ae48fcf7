/** The client's three subscriber registries, as values.

    `mListeners` maps a resource identifier to the ordered list of its
    entries `{call, not_send_me}`; the first registration for an
    identifier and the removal of its last entry are coordinated with the
    service by a remote request that happens before the local change.
    `mEvents` and `mGenericProtocolListeners` are plain ordered lists of
    callbacks. The step functions below give the new registry, the actions
    taken (remote requests and local key changes, in order) and the
    promise's outcome of one registry operation; the class in module Client
    is proved against them. */
module Registry {
  import opened Outcomes

  /** A callback is an opaque handle, compared by identity. */
  type CallbackId = nat

  /** One subscriber of a resource: `{call: cb, not_send_me: b}`. */
  datatype Entry = Entry(call: CallbackId, notSendMe: bool)

  type Listeners = map<string, seq<Entry>>

  datatype RemoteKind = Register | Unregister

  /** One request to the service's register_listener or unregister_listener
      endpoint for `uuid`, and whether it succeeded. */
  datatype RemoteCall = RemoteCall(kind: RemoteKind, uuid: string, succeeded: bool)

  /** What an operation does, in order: a remote request, or the creation or
      deletion of an identifier's key in the local registry. */
  datatype Action = Remote(call: RemoteCall) | KeyCreated(uuid: string) | KeyDeleted(uuid: string)

  datatype Step = Step(listeners: Listeners, actions: seq<Action>, outcome: Outcome)

  /** The list stored for `uuid`, or the empty list when there is none. */
  function EntriesOf(ls: Listeners, uuid: string): seq<Entry> {
    if uuid in ls then ls[uuid] else []
  }

  /** Registry invariant: no identifier is kept with an empty list. */
  ghost predicate Wellformed(ls: Listeners) {
    forall u :: u in ls ==> |ls[u]| > 0
  }

  /** `Array.prototype.indexOf`: the first position of `x`, or -1. */
  function IndexOf<T(==)>(s: seq<T>, x: T): (i: int)
    ensures -1 <= i < |s|
    ensures i == -1 <==> x !in s
    ensures 0 <= i ==> s[i] == x && x !in s[..i]
  {
    if |s| == 0 then -1
    else if s[0] == x then 0
    else
      var j := IndexOf(s[1..], x);
      assert j >= 0 ==> s[1..][..j] == s[1..j + 1];
      if j == -1 then -1 else j + 1
  }

  /** `indexOf` followed by `splice(i, 1)` when found. */
  function Without<T(==)>(s: seq<T>, x: T): (r: seq<T>)
    ensures x !in s ==> r == s
    ensures x in s ==> |r| == |s| - 1
  {
    var i := IndexOf(s, x);
    if i == -1 then s else s[..i] + s[i + 1..]
  }

  /** Removing a callback takes away exactly one occurrence of it. */
  lemma WithoutRemovesOne<T>(s: seq<T>, x: T)
    ensures multiset(Without(s, x)) == multiset(s) - multiset{x}
  {
    var i := IndexOf(s, x);
    if i != -1 {
      assert s == s[..i] + [x] + s[i + 1..];
      assert multiset(s) == multiset(s[..i]) + multiset{x} + multiset(s[i + 1..]);
    }
  }

  /** Removing keeps the order of the callbacks that remain: what is left
      before the removed one is untouched, what is after it moves up by one. */
  lemma WithoutKeepsOrder<T>(s: seq<T>, x: T)
    requires x in s
    ensures var i := IndexOf(s, x);
      0 <= i < |s| && s[i] == x &&
      (forall j :: 0 <= j < i ==> Without(s, x)[j] == s[j] && s[j] != x) &&
      (forall j :: i <= j < |s| - 1 ==> Without(s, x)[j] == s[j + 1])
  {
    var i := IndexOf(s, x);
    var r := Without(s, x);
    assert r == s[..i] + s[i + 1..];
    forall j | 0 <= j < i ensures r[j] == s[j] && s[j] != x {
      assert s[..i][j] == s[j];
    }
    forall j | i <= j < |s| - 1 ensures r[j] == s[j + 1] {
      assert r[j] == s[i + 1..][j - i];
    }
  }

  /** The callbacks of a list of entries, in order. */
  function Calls(es: seq<Entry>): (cs: seq<CallbackId>)
    ensures |cs| == |es|
    ensures forall i :: 0 <= i < |es| ==> cs[i] == es[i].call
  {
    seq(|es|, i requires 0 <= i < |es| => es[i].call)
  }

  /** The loop of `unregisterListener` over a list of several entries:
      the first entry whose `call` is `cb` is spliced out. */
  function RemoveFirstCall(es: seq<Entry>, cb: CallbackId): (r: seq<Entry>)
    ensures cb !in Calls(es) ==> r == es
    ensures cb in Calls(es) ==>
      exists i :: 0 <= i < |es| && es[i].call == cb &&
        (forall j :: 0 <= j < i ==> es[j].call != cb) &&
        r == es[..i] + es[i + 1..]
  {
    var i := IndexOf(Calls(es), cb);
    if i == -1 then es
    else
      assert forall j :: 0 <= j < i ==> Calls(es)[..i][j] == es[j].call;
      es[..i] + es[i + 1..]
  }

  /** A scan that stops at the first entry whose `call` is `cb` (or runs off
      the end) removes exactly what `RemoveFirstCall` removes. */
  lemma RemoveFirstCallAt(es: seq<Entry>, cb: CallbackId, j: nat)
    requires j <= |es|
    requires forall k :: 0 <= k < j ==> es[k].call != cb
    requires j < |es| ==> es[j].call == cb
    ensures RemoveFirstCall(es, cb) == if j < |es| then es[..j] + es[j + 1..] else es
  {
    var cs := Calls(es);
    if j < |es| {
      assert cs[j] == cb;
    } else {
      assert forall k :: 0 <= k < |cs| ==> cs[k] != cb;
    }
  }

  /** Appending an entry and then removing its callback gives back the list,
      when the callback was not there before. */
  lemma RemoveAppended(es: seq<Entry>, e: Entry)
    requires e.call !in Calls(es)
    ensures RemoveFirstCall(es + [e], e.call) == es
  {
    var s := es + [e];
    assert Calls(s) == Calls(es) + [e.call];
    assert Calls(s)[..|es|] == Calls(es);
    assert IndexOf(Calls(s), e.call) == |es|;
    assert s[..|es|] == es;
  }

  /** `registerListener(uuid, cb, b)`. Only a missing list triggers the
      remote register request, and the list is created only after it
      succeeded; then the entry is appended at the end. No uuid check and no
      duplicate check takes place (the `console.assert` at the push only
      logs). */
  function RegisterStep(ls: Listeners, uuid: string, cb: CallbackId, notSendMe: bool,
                        remoteOk: bool): (st: Step)
    ensures (uuid !in ls) <==> (st.actions != [] && st.actions[0] == Remote(RemoteCall(Register, uuid, remoteOk)))
    ensures uuid in ls ==> st.actions == []
    ensures st.outcome.Failed? <==> uuid !in ls && !remoteOk
    ensures st.outcome.Failed? ==> st.listeners == ls && st.outcome.error == RegisterRequestFailed(uuid)
    ensures st.outcome.Failed? ==> st.actions == [Remote(RemoteCall(Register, uuid, false))]
    ensures st.outcome.Done? ==> st.listeners == ls[uuid := EntriesOf(ls, uuid) + [Entry(cb, notSendMe)]]
    ensures st.outcome.Done? && uuid !in ls ==>
      st.actions == [Remote(RemoteCall(Register, uuid, true)), KeyCreated(uuid)]
    ensures Wellformed(ls) ==> Wellformed(st.listeners)
  {
    if uuid !in ls then
      var call := Remote(RemoteCall(Register, uuid, remoteOk));
      if !remoteOk then Step(ls, [call], Failed(RegisterRequestFailed(uuid)))
      else
        assert EntriesOf(ls, uuid) + [Entry(cb, notSendMe)] == [Entry(cb, notSendMe)];
        Step(ls[uuid := [Entry(cb, notSendMe)]], [call, KeyCreated(uuid)], Done)
    else
      Step(ls[uuid := ls[uuid] + [Entry(cb, notSendMe)]], [], Done)
  }

  /** `unregisterListener(uuid, cb)`. An absent list rejects with a
      TypeError. A single entry is removed through the remote unregister
      request, and the key is deleted only if it succeeded; `cb` is not
      compared (the `console.assert` only logs). Otherwise the first entry
      whose `call` is `cb` is removed locally, and nothing is done when none
      matches. */
  function UnregisterStep(ls: Listeners, uuid: string, cb: CallbackId, remoteOk: bool): (st: Step)
    ensures uuid !in ls ==> st == Step(ls, [], Failed(NoListenerList(uuid)))
    ensures (st.actions != [] && st.actions[0] == Remote(RemoteCall(Unregister, uuid, remoteOk))) <==>
      (uuid in ls && |ls[uuid]| == 1)
    ensures uuid in ls && |ls[uuid]| == 1 && remoteOk ==>
      st.listeners == ls - {uuid} && st.outcome == Done &&
      st.actions == [Remote(RemoteCall(Unregister, uuid, true)), KeyDeleted(uuid)]
    ensures uuid in ls && |ls[uuid]| == 1 && !remoteOk ==>
      st.listeners == ls && st.outcome == Failed(UnregisterRequestFailed(uuid)) &&
      st.actions == [Remote(RemoteCall(Unregister, uuid, false))]
    ensures uuid in ls && |ls[uuid]| != 1 ==>
      st.actions == [] && st.outcome == Done && st.listeners == ls[uuid := RemoveFirstCall(ls[uuid], cb)]
    ensures Wellformed(ls) ==> Wellformed(st.listeners)
  {
    if uuid !in ls then Step(ls, [], Failed(NoListenerList(uuid)))
    else if |ls[uuid]| == 1 then
      var call := Remote(RemoteCall(Unregister, uuid, remoteOk));
      if remoteOk then Step(ls - {uuid}, [call, KeyDeleted(uuid)], Done)
      else Step(ls, [call], Failed(UnregisterRequestFailed(uuid)))
    else
      Step(ls[uuid := RemoveFirstCall(ls[uuid], cb)], [], Done)
  }

  // ----- What the service holds, and the coherence of the local registry with it

  /** Whether, after the actions of `log`, the service holds a listener
      registration for `u`: the last successful request for `u` was a
      register request. */
  ghost predicate ServerHolds(log: seq<Action>, u: string)
    decreases |log|
  {
    if log == [] then false
    else
      var last := log[|log| - 1];
      if last.Remote? && last.call.uuid == u && last.call.succeeded then last.call.kind == Register
      else ServerHolds(log[..|log| - 1], u)
  }

  /** The local registry has a key for exactly the identifiers the service
      holds a registration for. */
  ghost predicate Coherent(ls: Listeners, log: seq<Action>) {
    forall u :: u in ls <==> ServerHolds(log, u)
  }

  lemma ServerHoldsAppend(log: seq<Action>, a: Action, u: string)
    ensures ServerHolds(log + [a], u) ==
      if a.Remote? && a.call.uuid == u && a.call.succeeded then a.call.kind == Register
      else ServerHolds(log, u)
  {
    assert (log + [a])[..|log|] == log;
  }

  /** A local action changes nothing the service holds. */
  lemma ServerHoldsLocal(log: seq<Action>, a: Action)
    requires !a.Remote?
    ensures forall u :: ServerHolds(log + [a], u) == ServerHolds(log, u)
  {
    forall u ensures ServerHolds(log + [a], u) == ServerHolds(log, u) {
      ServerHoldsAppend(log, a, u);
    }
  }

  /** A remote request changes what the service holds only for its own
      identifier, and only when it succeeded. */
  lemma ServerHoldsRemote(log: seq<Action>, c: RemoteCall)
    ensures forall u :: u != c.uuid || !c.succeeded ==>
      ServerHolds(log + [Remote(c)], u) == ServerHolds(log, u)
    ensures c.succeeded ==> ServerHolds(log + [Remote(c)], c.uuid) == (c.kind == Register)
  {
    forall u ensures ServerHolds(log + [Remote(c)], u) ==
      if c.uuid == u && c.succeeded then c.kind == Register else ServerHolds(log, u)
    {
      ServerHoldsAppend(log, Remote(c), u);
    }
  }

  /** Registration keeps the registry coherent with the service: a key is
      created exactly when the service has taken the registration. */
  lemma RegisterKeepsCoherent(ls: Listeners, log: seq<Action>, uuid: string, cb: CallbackId,
                              notSendMe: bool, remoteOk: bool)
    requires Coherent(ls, log)
    ensures var st := RegisterStep(ls, uuid, cb, notSendMe, remoteOk);
      Coherent(st.listeners, log + st.actions)
  {
    var st := RegisterStep(ls, uuid, cb, notSendMe, remoteOk);
    if uuid !in ls {
      var c := RemoteCall(Register, uuid, remoteOk);
      ServerHoldsRemote(log, c);
      if remoteOk {
        ServerHoldsLocal(log + [Remote(c)], KeyCreated(uuid));
        assert log + st.actions == log + [Remote(c)] + [KeyCreated(uuid)];
      } else {
        assert log + st.actions == log + [Remote(c)];
      }
    } else {
      assert log + st.actions == log;
    }
  }

  /** Deregistration keeps the registry coherent with the service: the key
      goes away exactly when the service has dropped the registration. */
  lemma UnregisterKeepsCoherent(ls: Listeners, log: seq<Action>, uuid: string, cb: CallbackId,
                                remoteOk: bool)
    requires Coherent(ls, log)
    ensures var st := UnregisterStep(ls, uuid, cb, remoteOk);
      Coherent(st.listeners, log + st.actions)
  {
    var st := UnregisterStep(ls, uuid, cb, remoteOk);
    if uuid in ls && |ls[uuid]| == 1 {
      var c := RemoteCall(Unregister, uuid, remoteOk);
      ServerHoldsRemote(log, c);
      if remoteOk {
        ServerHoldsLocal(log + [Remote(c)], KeyDeleted(uuid));
        assert log + st.actions == log + [Remote(c)] + [KeyDeleted(uuid)];
      } else {
        assert log + st.actions == log + [Remote(c)];
      }
    } else {
      assert log + st.actions == log;
    }
  }

  /** In a coherent registry the remote register request is issued only for
      an identifier the service does not hold yet: no second registration. */
  lemma RegisterRequestOnlyWhenFree(ls: Listeners, log: seq<Action>, uuid: string, cb: CallbackId,
                                    notSendMe: bool, remoteOk: bool)
    requires Coherent(ls, log)
    requires RegisterStep(ls, uuid, cb, notSendMe, remoteOk).actions != []
    ensures !ServerHolds(log, uuid)
  {
  }

  // ----- Sequences of operations

  /** Registering a callback for a fresh identifier and unregistering it
      again leaves the registry as it was, after exactly one register and
      one unregister request, each before its local change. */
  lemma RegisterThenUnregisterFresh(ls: Listeners, uuid: string, cb: CallbackId, notSendMe: bool)
    requires uuid !in ls
    ensures var st1 := RegisterStep(ls, uuid, cb, notSendMe, true);
      var st2 := UnregisterStep(st1.listeners, uuid, cb, true);
      st2.listeners == ls && st1.outcome == Done && st2.outcome == Done &&
      st1.actions + st2.actions ==
        [Remote(RemoteCall(Register, uuid, true)), KeyCreated(uuid),
         Remote(RemoteCall(Unregister, uuid, true)), KeyDeleted(uuid)]
  {
    var st1 := RegisterStep(ls, uuid, cb, notSendMe, true);
    assert st1.listeners - {uuid} == ls;
  }

  /** Registering a new callback beside existing entries and unregistering it
      again restores the list, with no remote request at all. */
  lemma RegisterThenUnregisterShared(ls: Listeners, uuid: string, cb: CallbackId, notSendMe: bool,
                                     ok1: bool, ok2: bool)
    requires uuid in ls && |ls[uuid]| > 0 && cb !in Calls(ls[uuid])
    ensures var st1 := RegisterStep(ls, uuid, cb, notSendMe, ok1);
      var st2 := UnregisterStep(st1.listeners, uuid, cb, ok2);
      st2.listeners == ls && st1.actions == [] && st2.actions == [] && st2.outcome == Done
  {
    RemoveAppended(ls[uuid], Entry(cb, notSendMe));
    var st1 := RegisterStep(ls, uuid, cb, notSendMe, ok1);
    assert st1.listeners[uuid := ls[uuid]] == ls;
  }

  /** The same callback registered twice for a fresh identifier is stored
      twice; only the first registration issues a remote request. */
  lemma DuplicateRegistrationKeptTwice(ls: Listeners, uuid: string, cb: CallbackId, notSendMe: bool)
    requires uuid !in ls
    ensures var st1 := RegisterStep(ls, uuid, cb, notSendMe, true);
      var st2 := RegisterStep(st1.listeners, uuid, cb, notSendMe, true);
      st2.outcome == Done && st2.actions == [] &&
      st2.listeners[uuid] == [Entry(cb, notSendMe), Entry(cb, notSendMe)]
  {
  }

  /** With a single entry, unregistering removes the identifier whatever
      callback is named. */
  lemma SingleEntryIgnoresCallback(ls: Listeners, uuid: string, cb: CallbackId, other: CallbackId)
    requires uuid in ls && |ls[uuid]| == 1
    ensures UnregisterStep(ls, uuid, other, true).listeners == ls - {uuid}
    ensures UnregisterStep(ls, uuid, cb, true) == UnregisterStep(ls, uuid, other, true)
  {
  }

  // ----- The system-event and generic-protocol lists

  /** `registerMetaxEvents(cb)` / `registerGenericProtocol(cb)`: `push`. */
  function Append(cbs: seq<CallbackId>, cb: CallbackId): (r: seq<CallbackId>)
    ensures |r| == |cbs| + 1 && r[..|cbs|] == cbs && r[|cbs|] == cb
  {
    cbs + [cb]
  }

  /** Registering and then unregistering a callback on the event list gives
      back the list, if the callback was not registered before. */
  lemma AppendThenWithout(cbs: seq<CallbackId>, cb: CallbackId)
    requires cb !in cbs
    ensures Without(Append(cbs, cb), cb) == cbs
  {
    var s := Append(cbs, cb);
    assert s[..|cbs|] == cbs;
    assert IndexOf(s, cb) == |cbs|;
  }
}
