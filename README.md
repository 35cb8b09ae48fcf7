# Metax client: subscription, dispatch and connection lifecycle

This project models the client-side synchronisation layer of the Metax
JavaScript client (`metax.js`). The client keeps a websocket to the local
`metax_web_api` service, routes the frames the service pushes to subscribers, and
reconnects when the socket drops. The model covers five parts:

- **Identifier check.** `isValidUUID` is modelled as a group-by-group reading of
  its anchored, case-insensitive regular expression. It is proved equal to a
  position-by-position reference definition.
- **Resource listener registry.** `mListeners` maps an identifier to its ordered
  entries `{call, not_send_me}`. Creating an identifier's list and deleting its
  last entry each go through a remote register or unregister request first. A
  ghost log records those requests and the local key changes in order, and
  proves that the registry stays coherent with what the service holds.
- **System-event and generic-protocol registries.** These are the ordered
  callback lists `mEvents` and `mGenericProtocolListeners`.
- **Message dispatch.** A frame goes to the resource entries, the system-event
  callbacks or the generic callbacks, as the strict cascade of
  `dispatchWebSocketMessage` decides. Each handler's loop gives the sequence of
  callback invocations.
- **Connection.** The model covers the URLs `setupConnectionParameters` derives,
  and the lifecycle that the websocket's handler slots produce: Disconnected,
  Connecting, Connected, ReconnectPending.

Modules: `Outcomes` (result values), `Uuid`, `Registry` (registry steps as
functions), `Dispatch` (classification and delivery as functions), `Connection`
(derived settings), `Lifecycle` (the socket state machine as functions), and
`Client` (the `Metax` class). The class's methods update its fields in place and
are proved against the functions of the other modules.

Abstractions:

- A remote request's outcome is a `remoteOk` parameter.
- A callback is an opaque handle (`CallbackId`). Whether it throws on a frame is
  the parameter `throwing`.
- What `JSON.parse` makes of a frame is the parameter `Parsed`. It is a parse
  failure, a non-object, or an object with or without `event` and `uuid`.
- Each asynchronous method is one atomic step.
- Socket events (open, error, close) and a reconnection timer firing are methods
  that the environment calls.

Where the code differs from the documented design, the model follows the code:

- `registerListener` neither validates the identifier nor rejects a duplicate
  callback. The `console.assert` calls only log, and the duplicate check compares
  the callback with entry objects. So the same callback is stored twice.
- With a single entry, `unregisterListener` deletes the identifier whatever
  callback is named.
- Identifiers are exact property keys. An update that spells a registered
  identifier in upper case reaches none of its entries.
- An update for an identifier with no list invokes none of the resource
  callbacks. `callbacks` is `undefined`, and reading its `length` in the
  assertion before the loop throws a TypeError. The dispatcher catches the
  error and hands the raw frame to the generic callbacks.
- A callback that throws during resource dispatch ends the loop. The dispatcher
  catches the re-raised error, and the generic callbacks then get the raw frame.
- `unregisterGenericProtocol` reads an undefined member, so it always rejects and
  never changes the list.
- Reconnection does not reuse the connection parameters. `connect` gets four
  arguments, not five. So the reconnected socket always uses `ws`, has encryption
  off, and carries `"true"` or `"false"` as its token.
- While a socket is opening, `onerror` and `onclose` only reject the pending
  promise. So a failed reconnection schedules no further attempt.
- On an open socket, an error followed by a close schedules two timers.
- `disconnect` detaches `onclose` only. An error after disconnecting still
  schedules a reconnection.
- Every `setupConnectionParameters` empties `mListeners`, reconnections included.
  After a reconnection, the service still holds registrations that the local
  registry no longer records.

## Model

| member | source | states |
|---|---|---|
| `Uuid.MatchFrom` | metax.js:149 | a match from offset k of groups of the given lengths joined by hyphens ends exactly at the end of the string, and the rest of the string has only hex digits and hyphens |
| `Uuid.IsValidUuid` | metax.js:148-150 | an accepted identifier has 36 characters, each a hex digit of either case or a hyphen |
| `Uuid.ValidIffShape` | metax.js:148-150 | the identifier check accepts exactly the 36-character strings with hyphens at 8, 13, 18, 23 and a hex digit of either case elsewhere, and nothing before or after |
| `Uuid.JoinedGroupsAreValid` | metax.js:148-150 | five groups of 8, 4, 4, 4, 12 characters joined by hyphens pass the check iff every group is hexadecimal |
| `Uuid.UpperKeepsValidity` | metax.js:149 | the check is case-insensitive: upper-casing a string never changes the verdict |
| `Registry.IndexOf` | metax.js:450 | Array indexOf: -1 iff the element is absent, otherwise the position of its first occurrence |
| `Registry.Without` | metax.js:450-453 | indexOf then splice: the list is unchanged when the callback is absent, and one shorter otherwise |
| `Registry.WithoutRemovesOne` | metax.js:450-453 | removal takes away exactly one occurrence of the callback (multiset difference) |
| `Registry.WithoutKeepsOrder` | metax.js:450-453 | the first occurrence is removed; elements before it stay in place and later ones move up by one |
| `Registry.RemoveFirstCall` | metax.js:517-524 | only the first entry whose call is cb is spliced out, and nothing changes when none matches |
| `Registry.RemoveFirstCallAt` | metax.js:517-524 | a scan that stops at the first entry whose call is cb, or runs off the end, removes exactly what the splice of the first match removes |
| `Registry.RemoveAppended` | metax.js:486 | removing the callback just appended (absent before) restores the list |
| `Registry.RegisterStep` | metax.js:471-487 | the remote register request is made iff the uuid has no list; on failure the registry is unchanged, the only action is the failed request and the error is raised; otherwise the entry is appended at the end of that uuid's list and no other key changes; the request precedes key creation |
| `Registry.UnregisterStep` | metax.js:497-528 | no list rejects; a single entry makes the unregister request first and deletes the key only on success (on failure the failed request is the only action and the registry is unchanged); several entries: no request, first matching entry removed; the non-empty-list invariant holds |
| `Registry.RegisterKeepsCoherent` | metax.js:471-487 | registration keeps the invariant that the registry has a key iff the service holds a registration |
| `Registry.UnregisterKeepsCoherent` | metax.js:493-515 | deregistration keeps that invariant; a failed unregister request keeps the entry |
| `Registry.RegisterRequestOnlyWhenFree` | metax.js:473-481 | in a coherent registry a register request is sent only for an identifier the service does not hold |
| `Registry.RegisterThenUnregisterFresh` | metax.js:471-528 | register then unregister on a fresh uuid restores the registry after exactly one register and one unregister request, each before its local change |
| `Registry.RegisterThenUnregisterShared` | metax.js:471-528 | beside existing entries, register then unregister of a new callback restores the list with no remote request |
| `Registry.DuplicateRegistrationKeptTwice` | metax.js:483-486 | the same callback registered twice is stored twice, with one remote request |
| `Registry.SingleEntryIgnoresCallback` | metax.js:505-515 | with one entry, unregistering deletes the uuid whichever callback is named |
| `Registry.Append` | metax.js:435-442 | push: the old list followed by the new callback at the end |
| `Registry.AppendThenWithout` | metax.js:435-454 | registering then unregistering a new event callback restores the list |
| `Dispatch.Classify` | metax.js:705-714 | the strict cascade: event and uuid gives a resource update, event alone a system event, anything else unclassified |
| `Dispatch.Deliver` | metax.js:747-757 | the loop calls at most one callback per entry, and when it re-raises the last callback called is one that throws |
| `Dispatch.DeliverCallsPrefix` | metax.js:747-757 | resource dispatch calls a prefix of the non-suppressed entries in registration order with (uuid, event); all of them when nothing throws |
| `Dispatch.FirstThrow` | metax.js:747-757 | the position of the first receiver that throws: no receiver before it throws, and the one at it does unless it is past the end |
| `Dispatch.DeliverRunsToFirstThrow` | metax.js:747-757 | resource dispatch re-raises iff there is a first throwing receiver, and then calls exactly the receivers up to and including it; otherwise it calls all of them |
| `Dispatch.DeliverRaisesIffSomeThrows` | metax.js:747-757 | resource dispatch aborts iff some non-suppressed callback throws |
| `Dispatch.DeliverStopsAtFirstThrow` | metax.js:747-757 | when resource dispatch re-raises, the last callback called is the first receiver that throws |
| `Dispatch.EventCalls` | metax.js:670-685 | one system-event call per callback, in list order, each with the event |
| `Dispatch.GenericCalls` | metax.js:687-700 | one generic call per callback, in list order, each with the raw data |
| `Dispatch.UpdateDelivery` | metax.js:728-758 | handleDBWebSocketMessage invokes nothing when the uuid has no list, and it raises iff the uuid has no list (the TypeError at line 745) or one of its receivers throws |
| `Dispatch.Route` | metax.js:705-720 | only a resource update can abort, and it aborts exactly when the resource handler raised |
| `Dispatch.RouteResourceUpdate` | metax.js:705-720 | a frame with event and uuid reaches only that uuid's entries and aborts iff the uuid has no list or one of its entries throws; with no list, the generic callbacks get the raw data and nothing else happens; when an entry throws, the calls are the entries up to and including the first thrower (no earlier receiver throws), followed by the generic callbacks with the raw data |
| `Dispatch.RouteSystemEvent` | metax.js:711-713 | a frame with event and no uuid reaches every system-event callback in order and nothing else |
| `Dispatch.RouteUnclassified` | metax.js:705-720 | a parse failure, a non-object or an object without event reaches every generic callback with the raw data |
| `Dispatch.RouteIsExclusive` | metax.js:705-720 | one frame never reaches both resource entries and system-event callbacks; generic callbacks always get the raw data |
| `Dispatch.UpperCaseUpdateMissesListener` | metax.js:742-747 | lookup is by exact key: for any registered uuid that is not already upper case, an update with its upper-case spelling (valid whenever the uuid is) reaches none of its entries; the lookup fails, the handler throws, and only the generic callbacks get the raw data |
| `Connection.PortText` | metax.js:583-584 | the port is rendered as a non-empty string of decimal digits with no leading zero |
| `Connection.PortTextValue` | metax.js:583-584 | reading the rendered port back as a decimal number gives the port |
| `Connection.Setup` | metax.js:574-610 | scheme https/wss iff secure, else http/ws; websocket path scheme://h:p; service path scheme://h:p/; register and unregister URLs are the service path plus db/register_listener?id= and db/unregister_listener?id= |
| `Connection.SocketUrl` | metax.js:638-639 | the socket address is the websocket path, then ?token=, then the access token |
| `Connection.RegisterUrl` | metax.js:475 | the register request is the register prefix followed by the uuid |
| `Connection.UnregisterUrl` | metax.js:509 | the unregister request is the unregister prefix followed by the uuid |
| `Connection.SchemesFollowSecureFlag` | metax.js:580-581 | only the secure flag chooses the schemes, and https goes with wss |
| `Connection.SameAuthority` | metax.js:582-584 | the websocket and service paths address the same h:p |
| `Connection.ListenerUrls` | metax.js:607-610 | a listener request is under the service path, ends with id= and the uuid, and the register and unregister URLs differ |
| `Connection.ReconnectParams` | metax.js:796-800 | the reconnect arguments keep host and port, turn encryption and security off and put "true"/"false" in the token |
| `Connection.ReconnectChangesSocketUrl` | metax.js:796-800 | a reconnected socket uses ws to the same h:p; a secure connection comes back on a different address |
| `Lifecycle.RunHandler` | metax.js:636-651 | an error or close handler changes no handler slot and no phase; reject settles the pending promise as rejected, reconnect adds one timer, and the no-op changes nothing |
| `Lifecycle.Create` | metax.js:636-652 | a new socket is consistent, in the Connecting state, with a pending promise; scheduled timers stay |
| `Lifecycle.SocketOpened` | metax.js:642-650 | an opening socket becomes Connected: dispatching, reconnecting error and close handlers, promise resolved; on any other socket nothing changes |
| `Lifecycle.SocketErrored` | metax.js:636-651 | a live socket starts closing and runs its current onerror (reject, reconnect or no-op), leaving onmessage and the handler slots as they are; otherwise nothing changes |
| `Lifecycle.SocketClosed` | metax.js:636-651 | a live socket closes, is no longer Connected, and runs its current onclose, leaving onmessage and the handler slots as they are; otherwise nothing changes |
| `Lifecycle.TimerFired` | metax.js:796-803 | a fired timer opens a new socket: consistent, Connecting, pending promise, one timer fewer |
| `Lifecycle.Disconnect` | metax.js:135-138 | with no socket disconnect rejects and changes nothing; otherwise onclose becomes a no-op, onerror, onmessage, the promise and the timers stay, and a live socket starts closing |
| `Lifecycle.StepsKeepConsistent` | metax.js:636-651 | every step keeps the handlers consistent with the socket phase |
| `Lifecycle.RunKeepsConsistent` | metax.js:636-651 | so does any sequence of socket events |
| `Lifecycle.Transitions` | metax.js:636-651 | connect enters Connecting; open enters Connected and resolves; before open, error or close rejects without a reconnect; after open, error or close enters ReconnectPending with one more timer; a timer re-enters Connecting; disconnect with no timer leaves Disconnected |
| `Lifecycle.UnopenedNeverReconnects` | metax.js:640-641 | a socket that never opens schedules no reconnection whatever errors and closes it sees |
| `Lifecycle.SettlesOnce` | metax.js:637-650 | a settled connect promise keeps its value |
| `Lifecycle.DisconnectSilencesClose` | metax.js:135-138 | after disconnect, close events schedule no reconnection |
| `Lifecycle.ErrorAfterDisconnectReconnects` | metax.js:135-138 | disconnect leaves onerror in place, so an error on a connected socket after disconnect still schedules a reconnection |
| `Lifecycle.ErrorThenCloseSchedulesTwice` | metax.js:765-782 | an error followed by a close on an open socket schedules two timers |
| `Client.Metax.constructor` | metax.js:74-108 | empty registries, no settings, no socket, empty log |
| `Client.Metax.RegisterListener` | metax.js:471-487 | new registry, actions appended to the log and outcome are those of the register step; coherence with the service is preserved |
| `Client.Metax.UnregisterListener` | metax.js:497-528 | the same for the unregister step; the loop finds the first matching entry |
| `Client.Metax.RegisterMetaxEvents` | metax.js:435-442 | the callback is appended to the event list |
| `Client.Metax.UnregisterMetaxEvents` | metax.js:448-454 | the first occurrence of the callback is removed from the event list |
| `Client.Metax.RegisterGenericProtocol` | metax.js:411-417 | the callback is appended to the generic list |
| `Client.Metax.UnregisterGenericProtocol` | metax.js:423-429 | always rejects: the method reads an undefined member, and the list stays as it is |
| `Client.Metax.HandleDBWebSocketMessage` | metax.js:728-758 | the invocations and the re-raise are those of UpdateDelivery: it raises with no call when the uuid has no list, and otherwise the loop gives the resource delivery of the uuid's entries |
| `Client.Metax.HandleMetaxEvents` | metax.js:670-685 | every event callback is called once, in order, with the event, whatever throws |
| `Client.Metax.HandleGenericProtocol` | metax.js:687-700 | every generic callback is called once, in order, with the data, whatever throws |
| `Client.Metax.DispatchWebSocketMessage` | metax.js:705-720 | the invocations are those of the dispatch cascade on the current registries, including the fall-through to the generic callbacks when the resource handler raises |
| `Client.Metax.SetupConnectionParameters` | metax.js:574-630 | settings are those derived from the five arguments, and mListeners is emptied |
| `Client.Metax.CreateWebsocket` | metax.js:636-652 | a new socket at websocket path plus ?token=, opening, with rejecting handlers and a pending promise |
| `Client.Metax.Connect` | metax.js:126-130 | setup followed by socket creation, with the source's default arguments |
| `Client.Metax.Disconnect` | metax.js:135-139 | the disconnect transition; rejects when there is no socket |
| `Client.Metax.SocketOpened` | metax.js:642-650 | onopen installs dispatch and the reconnecting error and close handlers, and resolves |
| `Client.Metax.SocketErrored` | metax.js:636-651 | runs the installed onerror: reject before open, schedule a reconnection after |
| `Client.Metax.SocketClosed` | metax.js:636-651 | runs the installed onclose: reject before open, reconnect after, nothing after disconnect |
| `Client.Metax.HandleWebSocketClose` | metax.js:765-769 | schedules one reconnection |
| `Client.Metax.HandleWebSocketError` | metax.js:778-782 | schedules one reconnection |
| `Client.Metax.ScheduleReconnect` | metax.js:789-805 | one more pending timer |
| `Client.Metax.ReconnectTimerFired` | metax.js:796-803 | the timer runs connect with the four as-written arguments: settings from the reconnect parameters, registry emptied, new opening socket |

## Left out

- HTTP requests (`HTTPGet`, `HTTPPost`) and every one-shot wrapper (`save`, `get`, `copy`, `share`, pairing and key calls, and so on). A listener request appears only as its success or failure.
- The request paths that only those wrappers use. `setupConnectionParameters` derives many request paths, but the model keeps only the two listener endpoints.
- `JSON.parse` itself. Its result is the `Parsed` input. `JSON.stringify` in log messages is also left out.
- The `WebSocket` object, its network behaviour and `setTimeout`. Socket events and a timer firing are methods the environment calls. The timer has no delay, because the delay value sits inside the arrow body.
- Sockets replaced by a later `connect`. Only the current socket's handlers and events are modelled.
- Interleaving of asynchronous operations. Each method is one atomic step. For example, two `registerListener` calls for one identifier, both waiting on their request, are not modelled.
- Property keys inherited from `Object.prototype`, such as `toString`. The model treats `mListeners` as a plain map.
- What callbacks do when invoked. A callback that changes a registry during dispatch is not modelled.
- Console logging, the `console.assert` checks (they only log), and the singleton assertions in the constructor and in `connect`.
- The Electron shell (`main.js`) and the SHA-256 class. The SHA-256 header has declarations only, with no bodies.
- Client.Metax.HandleMetaxEvents: "not_send_me" is read on the callback function itself and is never set, so every callback is called. The model always calls.
- Client.Metax.HandleMetaxEvents: every thrown value is assumed to be one `JSON.stringify` can serialise. A cyclic object or a BigInt makes the catch block's `JSON.stringify(e)` at metax.js:682 throw in turn, which would skip the later event callbacks and send the raw frame to the generic callbacks. Dispatch.EventCalls and Dispatch.RouteSystemEvent share this assumption.
- Client.Metax.HandleGenericProtocol: under the same assumption, every generic callback is called. A throw `JSON.stringify` cannot serialise makes the catch block at metax.js:697 throw, which would end the loop and escape `dispatchWebSocketMessage`. Dispatch.GenericCalls and Dispatch.RouteUnclassified share this assumption. In `handleDBWebSocketMessage` (metax.js:754) such a throw ends the loop just as the re-raise does, so that path is covered.
