/** Result values shared by the client model: an optional value and the
    outcome of one asynchronous client operation (a resolved or a rejected
    promise). */
module Outcomes {

  datatype Option<+T> = None | Some(value: T)

  /** Why an operation's promise is rejected. */
  datatype Error =
    | RegisterRequestFailed(uuid: string)    // the register_listener request failed
    | UnregisterRequestFailed(uuid: string)  // the unregister_listener request failed
    | NoListenerList(uuid: string)           // TypeError: reading `length` of an absent list
    | UndefinedRegistry                      // TypeError: `indexOf` of an undefined property
    | NoWebsocket                            // TypeError: setting `onclose` on the placeholder 0

  /** A resolved promise (`Done`) or a rejected one. */
  datatype Outcome = Done | Failed(error: Error)
}
