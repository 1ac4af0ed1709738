/**
 * The message transport as the library sees it: the local window, which
 * records every `postMessage` the library makes (its outbox) and the set of
 * message listeners installed on it. Host delivery of events to listeners is
 * not modelled; each listener's body is a method that requires its listener
 * to be installed.
 */
module Transport {
  import opened Wrappers
  import opened Wire

  /** A message listener, named by the closure instance that owns it. */
  datatype Listener =
    | HandshakeListener(owner: object)        // connectToParent's handshake listener
    | ReceiverListener(owner: object)         // a call receiver's listener
    | ReplyListener(owner: object, id: int)   // a call sender's listener for one call

  /** The local window (`target` / `local`): its handle, its parent and what the library did to it. */
  class TargetWindow {
    const self: WindowRef
    const parent: Option<WindowRef>
    var outbox: seq<Posted>
    var listeners: set<Listener>

    constructor (self: WindowRef, parent: Option<WindowRef>)
      ensures this.self == self && this.parent == parent
      ensures outbox == [] && listeners == {}
    {
      this.self := self;
      this.parent := parent;
      outbox := [];
      listeners := {};
    }

    /** `remote.postMessage(message, targetOrigin)`. */
    method PostMessage(to: WindowRef, message: Message, targetOrigin: string)
      modifies this`outbox
      ensures outbox == old(outbox) + [Posted(to, message, targetOrigin)]
    {
      outbox := outbox + [Posted(to, message, targetOrigin)];
    }

    /** `addEventListener('message', listener)`; adding an installed listener again changes nothing. */
    method AddEventListener(listener: Listener)
      modifies this`listeners
      ensures listeners == old(listeners) + {listener}
    {
      listeners := listeners + {listener};
    }

    /** `removeEventListener('message', listener)`; removing an absent listener changes nothing. */
    method RemoveEventListener(listener: Listener)
      modifies this`listeners
      ensures listeners == old(listeners) - {listener}
    {
      listeners := listeners - {listener};
    }
  }
}
