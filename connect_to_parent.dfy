/**
 * `connectToParent`: the child side of the handshake. It posts one Syn to
 * its parent, waits for an admitted SynAck, and then resolves its promise
 * with the proxy table bound by the SynAck handler. A destructor tears the
 * connection down; a timeout destroys it with a ConnectionTimeout error.
 */
module ConnectToParent {
  import opened Wrappers
  import opened PenpalError
  import opened Wire
  import opened Origin
  import opened Transport
  import opened Timeout
  import opened CreateDestructor
  import opened ConnectCallSender
  import opened ConnectCallReceiver
  import opened HandshakeMessageFactory

  class ParentConnection {
    const target: TargetWindow
    const methods: MethodTable
    /** The expected parent origin, `*` when none is configured. */
    const origin: string
    const destructor: Destructor<Teardown>
    /** The handshake timeout guard (`startTimeout(timeout, destroy)`). */
    const timer: Timer
    /** The connection promise. */
    var promise: Settlement<ProxyTable>
    /** The receiver and sender the SynAck handler bound (their destroy closures). */
    var receiver: CallReceiver?
    var sender: CallSender?

    /**
     * The destructor holds the connection's own teardown, followed by the
     * session's two once a SynAck was admitted; the handshake listener is
     * installed exactly while the connection is neither destroyed nor
     * connected, and the promise is pending while it is; a connected
     * connection's timer is no longer armed and its promise is resolved.
     */
    ghost predicate Valid()
      reads this, target, destructor, timer, receiver
    {
      && (receiver == null <==> sender == null)
      && destructor.callbacks ==
           [EndHandshake] + (if receiver != null then [DestroyReceiver(receiver), DestroySender(sender)] else [])
      && (receiver != null ==> receiver.local == target && timer.state != Armed && promise.Resolved?)
      && (HandshakeListener(this) in target.listeners <==> !destructor.destroyed && receiver == null)
      && (HandshakeListener(this) in target.listeners ==> promise == Pending)
      && (promise.RejectedWith? ==> destructor.destroyed)
    }

    /**
     * The executor of the connection promise: arm the timeout (when one is
     * given), install the handshake listener, post a Syn to the parent (or
     * the target itself) with the expected origin, and register the
     * connection's own teardown.
     */
    constructor (target: TargetWindow, methods: MethodTable, origin: Option<string>, timeout: Option<int>)
      modifies target
      ensures this.target == target && this.methods == methods && this.origin == origin.OrElse(Wildcard)
      ensures fresh(destructor) && fresh(timer) && receiver == null && sender == null
      ensures promise == Pending && !destructor.destroyed
      ensures timer.state == (if timeout.Some? then Armed else Unarmed)
      ensures timeout.Some? ==> timer.expiryMessage == "Connection timed out after " + NumberToString(timeout.value) + "ms"
      ensures target.listeners == old(target.listeners) + {HandshakeListener(this)}
      ensures target.outbox == old(target.outbox) + [Posted(target.parent.OrElse(target.self), Syn, origin.OrElse(Wildcard))]
      ensures Valid()
    {
      this.target := target;
      this.methods := methods;
      this.origin := origin.OrElse(Wildcard);
      destructor := new Destructor<Teardown>();
      timer := new Timer.StartTimeout(timeout);
      promise := Pending;
      receiver := null;
      sender := null;
      new;
      target.AddEventListener(HandshakeListener(this));
      target.PostMessage(target.parent.OrElse(target.self), Syn, this.origin);
      var ran := destructor.OnDestroy(EndHandshake);
    }

    /**
     * `handleMessage`: events without data or from a refused origin, and
     * messages other than SynAck, change nothing. An admitted SynAck is
     * handed to the SynAck handler; the table it returns ends the handshake:
     * the listener is removed, the timer stopped and the promise resolved
     * with that table, whose keys are exactly the advertised names.
     */
    method HandleMessage(event: Event)
      requires Valid() && HandshakeListener(this) in target.listeners
      modifies this, target, destructor, timer
      ensures Valid()
      ensures !(event.data.Some? && event.data.value.SynAck? && CheckMessageOrigin(event.origin, origin)) ==>
        && promise == old(promise) && receiver == old(receiver) && sender == old(sender)
        && target.outbox == old(target.outbox) && target.listeners == old(target.listeners)
        && destructor.callbacks == old(destructor.callbacks) && timer.state == old(timer.state)
      ensures event.data.Some? && event.data.value.SynAck? && CheckMessageOrigin(event.origin, origin) ==>
        && promise.Resolved? && fresh(promise.value) && receiver != null && fresh(receiver) && sender != null && fresh(sender)
        && promise.value.entries == ProxiesFor(sender, AdvertisedNames(event.data))
        && promise.value.entries.Keys == (set n | n in AdvertisedNames(event.data))
        && target.outbox == old(target.outbox) + [Posted(target.parent.OrElse(target.self), Ack(Some(methods.keys)), origin)]
        && target.listeners == old(target.listeners) - {HandshakeListener(this)} + {ReceiverListener(receiver)}
        && timer.state == (if old(timer.state) == Armed then Stopped else old(timer.state))
        && !receiver.destroyed && !sender.destroyed
        && receiver.local == target && receiver.remote == target.parent.OrElse(target.self) && receiver.methods == methods
        && receiver.originForSending == event.origin && receiver.originForReceiving == event.origin
        && receiver.inflight == []
        && sender.local == target && sender.remote == target.parent.OrElse(target.self) && sender.calls == map[]
        && sender.originForSending == event.origin && sender.originForReceiving == event.origin
      ensures destructor.destroyed == old(destructor.destroyed)
    {
      if event.data.None? || !CheckMessageOrigin(event.origin, origin) {
        return;
      }
      if event.data.value.SynAck? {
        var table, r, s, threw := HandleSynAck(target, methods, origin, destructor, event);
        if table.Some? {
          receiver, sender := r, s;
          target.RemoveEventListener(HandshakeListener(this));
          timer.Stop();
          promise := promise.SettleWith(Resolved(table.value));
        }
      }
    }

    /**
     * `destroy(error)`: the first destruction removes the handshake
     * listener, rejects the promise when an error is given (a settled
     * promise keeps its settlement), and destroys the bound receiver and
     * sender; a later destruction changes nothing.
     */
    method DestroyWith(error: Option<JsError>)
      requires Valid()
      modifies this`promise, target`listeners, destructor`destroyed, receiver, sender
      ensures Valid() && destructor.destroyed
      ensures receiver != null ==> receiver.inflight == old(receiver.inflight) && sender.calls == old(sender.calls)
      ensures old(destructor.destroyed) ==>
        && promise == old(promise) && target.listeners == old(target.listeners)
        && (receiver != null ==> receiver.destroyed == old(receiver.destroyed) && sender.destroyed == old(sender.destroyed))
      ensures !old(destructor.destroyed) ==>
        && promise == (if error.Some? then old(promise).SettleWith(RejectedWith(ErrorValue(error.value))) else old(promise))
        && target.listeners == old(target.listeners) - {HandshakeListener(this)}
             - (if receiver != null then {ReceiverListener(receiver)} else {})
        && (receiver != null ==> receiver.destroyed && sender.destroyed)
    {
      var invoked := destructor.Destroy(error);
      var i := 0;
      while i < |invoked|
        invariant 0 <= i <= |invoked|
        invariant destructor.destroyed
        invariant !old(destructor.destroyed) ==> forall j :: 0 <= j < |invoked| ==> invoked[j] == CreateDestructor.Invocation(destructor.callbacks[j], error)
        invariant old(destructor.destroyed) ==> invoked == []
        invariant |invoked| == 0 || |invoked| == |destructor.callbacks|
        invariant target.listeners == old(target.listeners)
          - (if i >= 1 then {HandshakeListener(this)} else {})
          - (if i >= 2 then {ReceiverListener(receiver)} else {})
        invariant promise == (if i >= 1 && error.Some? then old(promise).SettleWith(RejectedWith(ErrorValue(error.value))) else old(promise))
        invariant receiver != null ==> receiver.destroyed == (old(receiver.destroyed) || i >= 2)
        invariant sender != null ==> sender.destroyed == (old(sender.destroyed) || i >= 3)
        invariant receiver != null ==> receiver.inflight == old(receiver.inflight) && sender.calls == old(sender.calls)
      {
        match invoked[i].callback {
          case EndHandshake =>
            target.RemoveEventListener(HandshakeListener(this));
            if invoked[i].error.Some? {
              promise := promise.SettleWith(RejectedWith(ErrorValue(invoked[i].error.value)));
            }
          case DestroyReceiver(r) =>
            r.Destroy();
          case DestroySender(s) =>
            s.Destroy();
        }
        i := i + 1;
      }
    }

    /** The returned `destroy()`: a destruction without an error, which never rejects the promise. */
    method Destroy()
      requires Valid()
      modifies this`promise, target`listeners, destructor`destroyed, receiver, sender
      ensures Valid() && destructor.destroyed && promise == old(promise)
      ensures receiver != null ==> receiver.inflight == old(receiver.inflight) && sender.calls == old(sender.calls)
      ensures old(destructor.destroyed) ==>
        && target.listeners == old(target.listeners)
        && (receiver != null ==> receiver.destroyed == old(receiver.destroyed) && sender.destroyed == old(sender.destroyed))
      ensures !old(destructor.destroyed) ==>
        && target.listeners == old(target.listeners) - {HandshakeListener(this)}
             - (if receiver != null then {ReceiverListener(receiver)} else {})
        && (receiver != null ==> receiver.destroyed && sender.destroyed)
    {
      DestroyWith(None);
    }

    /**
     * The host timer expires. An armed timer destroys the connection with a
     * ConnectionTimeout error, so a connection still handshaking is torn
     * down and its promise rejected with that error; a stopped, absent or
     * fired timer, or one expiring after an earlier destruction, changes
     * nothing more.
     */
    method Expire()
      requires Valid()
      modifies this`promise, target`listeners, destructor`destroyed, receiver, sender, timer
      ensures Valid()
      ensures receiver != null ==> receiver.inflight == old(receiver.inflight) && sender.calls == old(sender.calls)
      ensures old(timer.state) != Armed || old(destructor.destroyed) ==>
        receiver != null ==> receiver.destroyed == old(receiver.destroyed) && sender.destroyed == old(sender.destroyed)
      ensures old(timer.state) != Armed ==>
        promise == old(promise) && target.listeners == old(target.listeners) && destructor.destroyed == old(destructor.destroyed)
      ensures old(timer.state) == Armed ==> destructor.destroyed && timer.state == Fired
      ensures old(destructor.destroyed) ==> promise == old(promise) && target.listeners == old(target.listeners)
      ensures old(timer.state) == Armed && !old(destructor.destroyed) ==>
        && promise.RejectedWith? && promise.reason.ErrorValue?
        && CodeOf(promise.reason.error) == Some(PenpalError.ConnectionTimeout)
        && Get(promise.reason.error, "message") == Str(timer.expiryMessage)
        && target.listeners == old(target.listeners) - {HandshakeListener(this)}
    {
      var error := timer.Expire();
      if error.Some? {
        DestroyWith(error);
      }
    }
  }
}
