/**
 * The handshake message handlers: Syn (parent side: answer with SynAck),
 * SynAck (child side: answer with Ack and bind a call receiver and a call
 * sender) and Ack (parent side: rebind, replacing the previous binding).
 */
module HandshakeMessageFactory {
  import opened Wrappers
  import opened Wire
  import opened Origin
  import opened Transport
  import opened CreateDestructor
  import opened ConnectCallSender
  import opened ConnectCallReceiver

  /**
   * The teardown callbacks registered with a destructor: the connection
   * facade's own callback, and the destroy closures of a call receiver and a
   * call sender.
   */
  datatype Teardown =
    | EndHandshake
    | DestroyReceiver(receiver: CallReceiver)
    | DestroySender(sender: CallSender)

  /** `data.methodNames || []`: the names a SynAck or Ack advertises, or none. */
  function AdvertisedNames(data: Option<Message>): (names: seq<string>)
    ensures data.Some? && (data.value.SynAck? || data.value.Ack?) && data.value.methodNames.Some? ==>
      names == data.value.methodNames.value
    ensures !(data.Some? && (data.value.SynAck? || data.value.Ack?) && data.value.methodNames.Some?) ==>
      names == []
  {
    match data
    case Some(SynAck(Some(names))) => names
    case Some(Ack(Some(names))) => names
    case _ => []
  }

  /**
   * The Syn handler (`createSynMessageFactory`): from an admitted origin it
   * sends one SynAck, listing the local method keys, to the event's source
   * (or the target) with `originForSending`; otherwise it sends nothing.
   */
  method HandleSyn(target: TargetWindow, methods: MethodTable, origin: string,
                   originForSending: string, event: Event)
    modifies target`outbox
    ensures !CheckMessageOrigin(event.origin, origin) ==> target.outbox == old(target.outbox)
    ensures CheckMessageOrigin(event.origin, origin) ==>
      target.outbox == old(target.outbox) +
        [Posted(event.source.OrElse(target.self), SynAck(Some(methods.keys)), originForSending)]
  {
    if !CheckMessageOrigin(event.origin, origin) {
      return;
    }
    target.PostMessage(event.source.OrElse(target.self), SynAck(Some(methods.keys)), originForSending);
  }

  /**
   * The SynAck handler (`createSynAckMessageFactory`). From a refused origin
   * it does nothing and returns no table. Otherwise it sends one Ack with the
   * local method keys to the target's parent (or the target), binds a call
   * receiver and a call sender, both using the event's origin, registers
   * their destroy closures (which a destroyed destructor runs at once), and
   * returns a fresh proxy table whose keys are exactly the advertised names.
   * An admitted event without data gets as far as the receiver: the Ack is
   * sent and the receiver bound and registered, then reading the advertised
   * names throws a TypeError (`threw`), so no sender is bound and no table
   * is returned.
   */
  method HandleSynAck(target: TargetWindow, methods: MethodTable, origin: string,
                      destructor: Destructor<Teardown>, event: Event)
    returns (table: Option<ProxyTable>, receiver: CallReceiver?, sender: CallSender?, threw: bool)
    modifies target, destructor
    ensures !CheckMessageOrigin(event.origin, origin) ==>
      && table == None && receiver == null && sender == null && !threw
      && target.outbox == old(target.outbox) && target.listeners == old(target.listeners)
      && destructor.callbacks == old(destructor.callbacks)
    ensures CheckMessageOrigin(event.origin, origin) ==>
      && receiver != null && fresh(receiver)
      && target.outbox == old(target.outbox) + [Posted(target.parent.OrElse(target.self), Ack(Some(methods.keys)), origin)]
      && receiver.local == target && receiver.remote == target.parent.OrElse(target.self) && receiver.methods == methods
      && receiver.originForSending == event.origin && receiver.originForReceiving == event.origin
      && receiver.inflight == []
      && (old(destructor.destroyed) ==>
            && receiver.destroyed
            && destructor.callbacks == old(destructor.callbacks)
            && target.listeners == old(target.listeners) - {ReceiverListener(receiver)})
      && (!old(destructor.destroyed) ==>
            && !receiver.destroyed
            && target.listeners == old(target.listeners) + {ReceiverListener(receiver)})
    ensures CheckMessageOrigin(event.origin, origin) && event.data.None? ==>
      && threw && table == None && sender == null
      && (!old(destructor.destroyed) ==> destructor.callbacks == old(destructor.callbacks) + [DestroyReceiver(receiver)])
    ensures CheckMessageOrigin(event.origin, origin) && event.data.Some? ==>
      && !threw && table.Some? && fresh(table.value) && sender != null && fresh(sender)
      && table.value.entries == ProxiesFor(sender, AdvertisedNames(event.data))
      && table.value.entries.Keys == (set n | n in AdvertisedNames(event.data))
      && sender.local == target && sender.remote == target.parent.OrElse(target.self) && sender.calls == map[]
      && sender.originForSending == event.origin && sender.originForReceiving == event.origin
      && (old(destructor.destroyed) ==> sender.destroyed)
      && (!old(destructor.destroyed) ==>
            && !sender.destroyed
            && destructor.callbacks == old(destructor.callbacks) + [DestroyReceiver(receiver), DestroySender(sender)])
    ensures destructor.destroyed == old(destructor.destroyed)
  {
    table, receiver, sender, threw := None, null, null, false;
    if !CheckMessageOrigin(event.origin, origin) {
      return;
    }
    var remote := target.parent.OrElse(target.self);
    target.PostMessage(remote, Ack(Some(methods.keys)), origin);

    receiver := new CallReceiver(target, remote, event.origin, event.origin, methods);
    var ran := destructor.OnDestroy(DestroyReceiver(receiver));
    if ran.Some? {
      receiver.Destroy();
    }
    if event.data.None? {
      threw := true;
      return;
    }

    var names := AdvertisedNames(event.data);
    var callSender := new ProxyTable();
    sender := new CallSender(target, remote, event.origin, event.origin, callSender, names);
    ran := destructor.OnDestroy(DestroySender(sender));
    if ran.Some? {
      sender.Destroy();
    }
    table := Some(callSender);
  }

  /**
   * The Ack handler (`createAckMessageFactory`) and the state its closure
   * keeps across re-handshakes: the previous receiver's destroy closure, the
   * previously advertised names and the one shared proxy table.
   */
  class AckHandler {
    const target: TargetWindow
    const methods: MethodTable
    const origin: string
    const originForSending: string
    const destructor: Destructor<Teardown>
    /** The shared `callSender` table, returned by every admitted Ack. */
    const callSender: ProxyTable
    /** `destroyCallReceiver`: the receiver bound by the last admitted Ack. */
    var receiver: CallReceiver?
    /** `receiverMethodNames`: the names the last admitted Ack advertised. */
    var names: Option<seq<string>>
    /** The call sender bound by the last admitted Ack (`createAckMessageFactory` keeps only its proxies). */
    ghost var sender: CallSender?

    /**
     * The shared table holds only names of the last completed binding (all
     * of them unless a data-less Ack deleted them since), and the bound
     * receiver listens on the target.
     */
    ghost predicate Valid()
      reads this, callSender
    {
      && (receiver != null ==> receiver.local == target)
      && (names.None? ==> callSender.entries == map[])
      && (names.Some? ==> callSender.entries.Keys <= set n | n in names.value)
    }

    constructor (target: TargetWindow, methods: MethodTable, origin: string,
                 originForSending: string, destructor: Destructor<Teardown>)
      ensures this.target == target && this.methods == methods && this.destructor == destructor
      ensures this.origin == origin && this.originForSending == originForSending
      ensures fresh(callSender) && receiver == null && names == None && sender == null
      ensures Valid()
    {
      this.target := target;
      this.methods := methods;
      this.origin := origin;
      this.originForSending := originForSending;
      this.destructor := destructor;
      callSender := new ProxyTable();
      receiver := null;
      names := None;
      sender := null;
    }

    /**
     * One Ack event. From a refused origin nothing changes and nothing is
     * returned. Otherwise the previous receiver is destroyed before a new
     * one is bound (replying to the event's source, or the target), the
     * previously advertised names are deleted from the shared table before
     * the new names' proxies are assigned, both destroy closures are
     * registered, and the same shared table is returned. The previous call
     * sender is not destroyed. The handler sends nothing itself. An admitted
     * event without data throws a TypeError (`threw`) once the receiver is
     * rebound and the previous names are deleted: the remembered names and
     * the sender stay as they were and no table is returned.
     */
    method HandleAck(event: Event) returns (r: Option<ProxyTable>, threw: bool)
      requires Valid()
      modifies this, target, destructor, callSender, (if receiver != null then {receiver} else {})
      ensures !CheckMessageOrigin(event.origin, origin) ==>
        && r == None && !threw && receiver == old(receiver) && names == old(names) && sender == old(sender)
        && callSender.entries == old(callSender.entries)
        && target.listeners == old(target.listeners) && destructor.callbacks == old(destructor.callbacks)
        && (old(receiver) != null ==> old(receiver).destroyed == old(receiver.destroyed))
      ensures CheckMessageOrigin(event.origin, origin) ==>
        var newNames := AdvertisedNames(event.data);
        var oldNames := if old(names).Some? then set n | n in old(names).value else {};
        var oldListener := if old(receiver) != null then {ReceiverListener(old(receiver))} else {};
        && (old(receiver) != null ==> old(receiver).destroyed)
        && receiver != null && fresh(receiver) && receiver.local == target && receiver.methods == methods
        && receiver.inflight == []
        && receiver.remote == event.source.OrElse(target.self)
        && receiver.originForSending == originForSending && receiver.originForReceiving == origin
        && (old(destructor.destroyed) ==>
              && receiver.destroyed && destructor.callbacks == old(destructor.callbacks)
              && target.listeners == old(target.listeners) - oldListener - {ReceiverListener(receiver)})
        && (!old(destructor.destroyed) ==>
              && !receiver.destroyed
              && target.listeners == old(target.listeners) - oldListener + {ReceiverListener(receiver)})
        && (event.data.None? ==>
              && r == None && threw && names == old(names) && sender == old(sender)
              && callSender.entries == old(callSender.entries) - oldNames
              && (!old(destructor.destroyed) ==> destructor.callbacks == old(destructor.callbacks) + [DestroyReceiver(receiver)]))
        && (event.data.Some? ==>
              && r == Some(callSender) && !threw
              && sender != null && fresh(sender) && sender.local == target
              && sender.remote == event.source.OrElse(target.self)
              && sender.originForSending == origin && sender.originForReceiving == origin
              && names == Some(newNames)
              && callSender.entries == (old(callSender.entries) - oldNames) + ProxiesFor(sender, newNames)
              && callSender.entries.Keys == (set n | n in newNames)
              && (old(destructor.destroyed) ==> sender.destroyed)
              && (!old(destructor.destroyed) ==>
                    && !sender.destroyed
                    && destructor.callbacks == old(destructor.callbacks) + [DestroyReceiver(receiver), DestroySender(sender)]))
      ensures Valid()
      ensures old(receiver) != null ==> old(receiver).inflight == old(receiver.inflight)
      ensures target.outbox == old(target.outbox)
      ensures destructor.destroyed == old(destructor.destroyed)
    {
      r, threw := None, false;
      if !CheckMessageOrigin(event.origin, origin) {
        return;
      }
      var remote := event.source.OrElse(target.self);
      BindReceiver(remote);
      DeletePreviousNames();
      if event.data.None? {
        threw := true;
        return;
      }
      BindSender(remote, AdvertisedNames(event.data));
      r := Some(callSender);
    }

    /** The receiver half of an admitted Ack: destroy the previous receiver, bind and register a new one. */
    method BindReceiver(remote: WindowRef)
      requires receiver != null ==> receiver.local == target
      modifies this`receiver, target`listeners, destructor`callbacks, (if receiver != null then {receiver} else {})
      ensures old(receiver) != null ==> old(receiver).destroyed && old(receiver).inflight == old(receiver.inflight)
      ensures receiver != null && fresh(receiver) && receiver.local == target && receiver.methods == methods
      ensures receiver.inflight == [] && receiver.remote == remote
      ensures receiver.originForSending == originForSending && receiver.originForReceiving == origin
      ensures var oldListener := if old(receiver) != null then {ReceiverListener(old(receiver))} else {};
        && (destructor.destroyed ==>
              && receiver.destroyed && destructor.callbacks == old(destructor.callbacks)
              && target.listeners == old(target.listeners) - oldListener - {ReceiverListener(receiver)})
        && (!destructor.destroyed ==>
              && !receiver.destroyed && destructor.callbacks == old(destructor.callbacks) + [DestroyReceiver(receiver)]
              && target.listeners == old(target.listeners) - oldListener + {ReceiverListener(receiver)})
    {
      if receiver != null {
        receiver.Destroy();
      }
      receiver := new CallReceiver(target, remote, originForSending, origin, methods);
      var ran := destructor.OnDestroy(DestroyReceiver(receiver));
      if ran.Some? {
        receiver.Destroy();
      }
    }

    /** Delete the previously advertised names from the shared table. */
    method DeletePreviousNames()
      modifies callSender
      ensures var oldNames := if names.Some? then set n | n in names.value else {};
        callSender.entries == old(callSender.entries) - oldNames
    {
      if names.Some? {
        var previous := names.value;
        for i := 0 to |previous|
          invariant callSender.entries == old(callSender.entries) - set n | n in previous[..i]
        {
          assert previous[..i + 1] == previous[..i] + [previous[i]];
          callSender.Delete(previous[i]);
        }
        assert previous[..|previous|] == previous;
      }
    }

    /** The sender half of an admitted Ack: remember the new names and bind a new sender over the shared table. */
    method BindSender(remote: WindowRef, newNames: seq<string>)
      modifies this`names, this`sender, callSender, destructor`callbacks
      ensures sender != null && fresh(sender) && sender.local == target && sender.remote == remote
      ensures sender.originForSending == origin && sender.originForReceiving == origin
      ensures names == Some(newNames)
      ensures callSender.entries == old(callSender.entries) + ProxiesFor(sender, newNames)
      ensures destructor.destroyed ==> sender.destroyed && destructor.callbacks == old(destructor.callbacks)
      ensures !destructor.destroyed ==>
        !sender.destroyed && destructor.callbacks == old(destructor.callbacks) + [DestroySender(sender)]
    {
      names := Some(newNames);
      var s := new CallSender(target, remote, origin, origin, callSender, newNames);
      sender := s;
      var ran := destructor.OnDestroy(DestroySender(s));
      if ran.Some? {
        s.Destroy();
      }
    }
  }
}
