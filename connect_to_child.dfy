/**
 * `connectToChild`: the single-file parent variant. It answers a Syn with a
 * SynAck, completes on an Ack by rebuilding its proxy table, correlates its
 * own calls with replies through a handler registry, and answers incoming
 * calls. Unlike the other side, it admits a message only when its origin
 * equals the configured origin exactly, and it guards every send with its
 * own `destroyed` flag.
 */
module ConnectToChild {
  import opened Wrappers
  import opened PenpalError
  import opened Wire
  import opened Origin
  import opened Timeout
  import opened CreateHandlerFactory
  import opened ConnectCallSender
  import opened ConnectCallReceiver

  /** One `postMessage(data, origin)` on the custom target. */
  datatype Sent = Sent(message: Message, targetOrigin: string)

  /** A proxy `createMethodProxy(methodName)` installed in the proxy table. */
  datatype MethodProxy = MethodProxy(methodName: string)

  /**
   * The custom target of this variant: `postMessage`, a single `onMessage`
   * subscription and an optional `onDestroy` hook, whose calls are counted.
   */
  class ChildTarget {
    const hasOnDestroy: bool
    var outbox: seq<Sent>
    var subscribers: seq<object>
    var onDestroyCalls: nat

    constructor (hasOnDestroy: bool)
      ensures this.hasOnDestroy == hasOnDestroy && outbox == [] && subscribers == [] && onDestroyCalls == 0
    {
      this.hasOnDestroy := hasOnDestroy;
      outbox := [];
      subscribers := [];
      onDestroyCalls := 0;
    }

    method PostMessage(message: Message, targetOrigin: string)
      modifies this`outbox
      ensures outbox == old(outbox) + [Sent(message, targetOrigin)]
    {
      outbox := outbox + [Sent(message, targetOrigin)];
    }

    method OnMessage(handler: object)
      modifies this`subscribers
      ensures subscribers == old(subscribers) + [handler]
    {
      subscribers := subscribers + [handler];
    }

    method OnDestroy()
      requires hasOnDestroy
      modifies this`onDestroyCalls
      ensures onDestroyCalls == old(onDestroyCalls) + 1
    {
      onDestroyCalls := onDestroyCalls + 1;
    }
  }

  /** The proxy table an Ack builds: one proxy per advertised name, or none. */
  function ProxyTableFor(methodNames: Option<seq<string>>): (table: map<string, MethodProxy>)
    ensures methodNames.None? ==> table == map[]
    ensures table.Keys == set n | n in methodNames.OrElse([])
    ensures forall n :: n in table ==> table[n] == MethodProxy(n)
  {
    map n | n in methodNames.OrElse([]) :: MethodProxy(n)
  }

  /** The message a proxy call of a destroyed connection throws with. */
  function DestroyedProxyMessage(methodName: string): string
  {
    "连接已中断，无法发送 " + methodName + "() 调用消息"
  }

  /**
   * The reply to a settled incoming call: the method's value when it
   * returned, its reason when it threw, except that an Error reason is
   * replaced by a plain object holding its code, name and message. The
   * reply never carries the error flag.
   */
  function ChildReplyFor(id: int, outcome: Outcome): (m: Message)
    ensures m.Reply? && m.id == id && !m.returnValueIsError
    ensures m.resolution == (if outcome.Returned? then Fulfilled else Resolution.Rejected)
    ensures outcome.Returned? ==> m.returnValue == outcome.value
    ensures outcome.Threw? && !outcome.reason.ErrorValue? ==> m.returnValue == outcome.reason
    ensures outcome.Threw? && outcome.reason.ErrorValue? ==>
      && m.returnValue.Object?
      && m.returnValue.props.Keys == {"code", "name", "message"}
      && forall k :: k in m.returnValue.props ==> m.returnValue.props[k] == Get(outcome.reason.error, k)
  {
    match outcome
    case Returned(v) => Reply(id, Fulfilled, v, false)
    case Threw(v) =>
      if v.ErrorValue? then
        var e := v.error;
        Reply(id, Resolution.Rejected,
              Object(map["code" := Get(e, "code"), "name" := Get(e, "name"), "message" := Get(e, "message")]), false)
      else Reply(id, Resolution.Rejected, v, false)
  }

  class ChildConnection {
    const target: ChildTarget
    const methods: MethodTable
    /** The configured origin, `*` when none is given; compared for exact equality. */
    const origin: string
    /** `callSenderFactory`: reply handlers by call id, each holding the id its closure captured. */
    const handlers: HandlerRegistry<int>
    /** The handshake timeout guard (`connectionTimeout(timeout, …)`). */
    const timer: Timer
    var destroyed: bool
    /** The `callSender` object the promise resolves with: proxies by name. */
    var callSender: map<string, MethodProxy>
    /** The deferred promises of the proxy calls made so far, by call id. */
    var calls: map<int, Settlement<Value>>
    /** Incoming calls whose method has been invoked but has not yet settled. */
    var inflight: seq<Invocation>
    /** `deferredChild.promise`, whose value is always this connection's `callSender`. */
    var promise: Settlement<()>

    /** Every registered reply handler was registered under the id it captured, by a call still recorded. */
    ghost predicate Valid()
      reads this, handlers
    {
      forall k :: k in handlers.callbacks ==> handlers.callbacks[k] == k && k in calls
    }

    /** Creation: arm the timeout when one is given and subscribe to the target's messages. */
    constructor (target: ChildTarget, methods: MethodTable, origin: Option<string>, timeout: Option<int>)
      modifies target`subscribers
      ensures this.target == target && this.methods == methods && this.origin == origin.OrElse(Wildcard)
      ensures fresh(handlers) && fresh(timer) && handlers.callbacks == map[]
      ensures timer.state == (if timeout.Some? then Armed else Unarmed)
      ensures timeout.Some? ==> timer.expiryMessage == "握手连接超时(" + NumberToString(timeout.value) + "ms)"
      ensures !destroyed && callSender == map[] && calls == map[] && inflight == [] && promise == Pending
      ensures target.subscribers == old(target.subscribers) + [this]
      ensures Valid()
    {
      this.target := target;
      this.methods := methods;
      this.origin := origin.OrElse(Wildcard);
      handlers := new HandlerRegistry<int>();
      timer := new Timer.ConnectionTimeout(timeout);
      destroyed := false;
      callSender := map[];
      calls := map[];
      inflight := [];
      promise := Pending;
      new;
      target.OnMessage(this);
    }

    /** `sendData`: posts to the target with the configured origin, unless destroyed. */
    method SendData(data: Message)
      modifies target`outbox
      ensures target.outbox == old(target.outbox) + (if destroyed then [] else [Sent(data, origin)])
    {
      if destroyed {
        return;
      }
      target.PostMessage(data, origin);
    }

    /** `destroy()`: marks the connection destroyed and calls the target's hook when it has one. */
    method Destroy()
      modifies this`destroyed, target`onDestroyCalls
      ensures destroyed
      ensures target.onDestroyCalls == old(target.onDestroyCalls) + (if target.hasOnDestroy then 1 else 0)
    {
      destroyed := true;
      if target.hasOnDestroy {
        target.OnDestroy();
      }
    }

    /**
     * The host timer expires: an armed timer marks the connection destroyed
     * and rejects the promise with a ConnectionTimeout error (a settled
     * promise keeps its settlement); otherwise nothing changes.
     */
    method Expire()
      modifies this`destroyed, this`promise, timer
      ensures old(timer.state) != Armed ==> destroyed == old(destroyed) && promise == old(promise)
      ensures old(timer.state) == Armed ==> destroyed && timer.state == Fired
      ensures old(timer.state) == Armed && old(promise) == Pending ==>
        && promise.RejectedWith? && promise.reason.ErrorValue?
        && CodeOf(promise.reason.error) == Some(PenpalError.ConnectionTimeout)
        && Get(promise.reason.error, "message") == Str(timer.expiryMessage)
      ensures old(promise) != Pending ==> promise == old(promise)
      ensures timer.state == (if old(timer.state) == Armed then Fired else old(timer.state))
    {
      var error := timer.Expire();
      if error.Some? {
        destroyed := true;
        promise := promise.SettleWith(RejectedWith(ErrorValue(error.value)));
      }
    }

    /** `handleSynMessage`: one SynAck listing the local method keys, unless destroyed. */
    method HandleSyn()
      modifies target`outbox
      ensures target.outbox == old(target.outbox) +
        (if destroyed then [] else [Sent(SynAck(Some(methods.keys)), origin)])
    {
      SendData(SynAck(Some(methods.keys)));
    }

    /**
     * `handleAckMessage`: revives the connection, deletes every earlier
     * proxy, clears every pending reply handler, installs one proxy per
     * advertised name, stops the timeout and resolves the promise (a
     * settled promise keeps its settlement). Calls whose handlers are
     * cleared stay pending.
     */
    method HandleAck(methodNames: Option<seq<string>>)
      requires Valid()
      modifies this`destroyed, this`callSender, handlers, timer, this`promise
      ensures Valid() && !destroyed && handlers.callbacks == map[]
      ensures callSender == ProxyTableFor(methodNames)
      ensures timer.state == (if old(timer.state) == Armed then Stopped else old(timer.state))
      ensures promise == (if old(promise) == Pending then Resolved(()) else old(promise))
    {
      destroyed := false;
      var receiverMethodNames := callSender.Keys;
      while receiverMethodNames != {}
        modifies this`callSender
        invariant callSender.Keys == receiverMethodNames
        decreases receiverMethodNames
      {
        var name := Choose(receiverMethodNames);
        callSender := callSender - {name};
        receiverMethodNames := receiverMethodNames - {name};
      }
      handlers.Destroy();
      callSender := callSender + ProxyTableFor(methodNames);
      timer.Stop();
      promise := promise.SettleWith(Resolved(()));
    }

    /**
     * A call of the proxy for `methodName`, with the fresh id `id` from the
     * id supplier. While destroyed it throws a ConnectionDestroyed error and
     * changes nothing; otherwise it records a pending call, registers its
     * reply handler under `id` and sends one Call with that id.
     */
    method CallProxy(methodName: string, args: seq<Value>, id: int) returns (thrown: Option<JsError>)
      requires Valid() && id !in calls
      modifies this`calls, handlers, target`outbox
      ensures Valid()
      ensures old(destroyed) ==>
        && thrown.Some? && CodeOf(thrown.value) == Some(ConnectionDestroyed)
        && Get(thrown.value, "message") == Str(DestroyedProxyMessage(methodName))
        && calls == old(calls) && handlers.callbacks == old(handlers.callbacks) && target.outbox == old(target.outbox)
      ensures !old(destroyed) ==>
        && thrown == None
        && calls == old(calls)[id := Pending]
        && handlers.callbacks == old(handlers.callbacks)[id := id]
        && target.outbox == old(target.outbox) + [Sent(Call(id, methodName, args), origin)]
    {
      if destroyed {
        thrown := Some(CreatePenpalError(ConnectionDestroyed, DestroyedProxyMessage(methodName)));
        return;
      }
      thrown := None;
      calls := calls[id := Pending];
      handlers.OnHandle(id, id);
      SendData(Call(id, methodName, args));
    }

    /**
     * `handleReplyMessage`: the reply is offered to every registered
     * handler; only the handler registered under the reply's id accepts it,
     * deleting itself and settling its call (a settled call keeps its
     * settlement). A reply for no registered id changes nothing, so each
     * call is settled by at most one reply.
     */
    method HandleReply(reply: Message)
      requires Valid() && reply.Reply?
      modifies this`calls, handlers
      ensures Valid()
      ensures reply.id !in old(handlers.callbacks) ==>
        calls == old(calls) && handlers.callbacks == old(handlers.callbacks)
      ensures reply.id in old(handlers.callbacks) ==>
        && handlers.callbacks == old(handlers.callbacks) - {reply.id}
        && calls == old(calls)[reply.id := old(calls)[reply.id].SettleWith(ReplySettlement(reply))]
    {
      var invoked := handlers.Handle();
      var i := 0;
      while i < |invoked|
        invariant 0 <= i <= |invoked|
        invariant Valid()
        invariant handlers.callbacks ==
          old(handlers.callbacks) - (if reply.id in invoked[..i] then {reply.id} else {})
        invariant calls == if reply.id in invoked[..i]
          then old(calls)[reply.id := old(calls)[reply.id].SettleWith(ReplySettlement(reply))]
          else old(calls)
      {
        assert invoked[..i + 1] == invoked[..i] + [invoked[i]];
        var k := invoked[i];
        assert k !in invoked[..i];
        var callSenderId := handlers.callbacks[k];
        if reply.id == callSenderId {
          handlers.Del(callSenderId);
          calls := calls[callSenderId := calls[callSenderId].SettleWith(ReplySettlement(reply))];
        }
        i := i + 1;
      }
      assert invoked[..|invoked|] == invoked;
    }

    /**
     * `handleCallMessage`: while destroyed, or when the name is not a
     * callable method, the call is dropped without reply; otherwise the
     * method runs and its settlement is awaited.
     */
    method HandleCall(id: int, methodName: string, outcome: Outcome)
      modifies this`inflight
      ensures inflight == old(inflight) +
        (if !destroyed && methodName in methods.callable then [Invocation(id, methodName, outcome)] else [])
    {
      if destroyed {
        return;
      }
      if methodName !in methods.callable {
        return;
      }
      inflight := inflight + [Invocation(id, methodName, outcome)];
    }

    /** The method of the in-flight call `k` settles: its reply goes out unless the connection is destroyed by then. */
    method Settle(k: nat)
      requires k < |inflight|
      modifies this`inflight, target`outbox
      ensures inflight == old(inflight[..k] + inflight[k + 1..])
      ensures target.outbox == old(target.outbox) +
        (if destroyed then [] else [Sent(ChildReplyFor(old(inflight[k]).id, old(inflight[k]).outcome), origin)])
    {
      var call := inflight[k];
      inflight := inflight[..k] + inflight[k + 1..];
      SendData(ChildReplyFor(call.id, call.outcome));
    }

    /**
     * `handleMessageEvent`: a message whose origin differs from the
     * configured one (even when that is `*`) is ignored; otherwise Syn, Ack,
     * Call and Reply are dispatched to their handlers and every other
     * message is ignored. `outcome` is how the called method settles.
     */
    method HandleMessageEvent(event: Event, outcome: Outcome)
      requires Valid() && this in target.subscribers
      modifies this, handlers, timer, target`outbox
      ensures Valid()
      ensures event.origin != origin || event.data.None? ||
              !(event.data.value.Syn? || event.data.value.Ack? || event.data.value.Call? || event.data.value.Reply?) ==>
        && destroyed == old(destroyed) && callSender == old(callSender) && calls == old(calls)
        && inflight == old(inflight) && promise == old(promise)
        && handlers.callbacks == old(handlers.callbacks) && target.outbox == old(target.outbox)
        && timer.state == old(timer.state)
      ensures event.origin == origin && event.data.Some? && event.data.value.Ack? ==>
        && !destroyed && callSender == ProxyTableFor(event.data.value.methodNames)
        && handlers.callbacks == map[]
        && timer.state == (if old(timer.state) == Armed then Stopped else old(timer.state))
        && promise == (if old(promise) == Pending then Resolved(()) else old(promise))
        && calls == old(calls) && inflight == old(inflight) && target.outbox == old(target.outbox)
      ensures event.origin == origin && event.data.Some? && event.data.value.Syn? ==>
        && target.outbox == old(target.outbox) + (if destroyed then [] else [Sent(SynAck(Some(methods.keys)), origin)])
        && destroyed == old(destroyed) && callSender == old(callSender) && calls == old(calls)
        && inflight == old(inflight) && promise == old(promise)
        && handlers.callbacks == old(handlers.callbacks) && timer.state == old(timer.state)
      ensures event.origin == origin && event.data.Some? && event.data.value.Call? ==>
        var call := event.data.value;
        && inflight == old(inflight) +
             (if !destroyed && call.methodName in methods.callable then [Invocation(call.id, call.methodName, outcome)] else [])
        && destroyed == old(destroyed) && callSender == old(callSender) && calls == old(calls)
        && promise == old(promise) && handlers.callbacks == old(handlers.callbacks)
        && target.outbox == old(target.outbox) && timer.state == old(timer.state)
      ensures event.origin == origin && event.data.Some? && event.data.value.Reply? ==>
        var reply := event.data.value;
        && (reply.id !in old(handlers.callbacks) ==> calls == old(calls) && handlers.callbacks == old(handlers.callbacks))
        && (reply.id in old(handlers.callbacks) ==>
              && handlers.callbacks == old(handlers.callbacks) - {reply.id}
              && calls == old(calls)[reply.id := old(calls)[reply.id].SettleWith(ReplySettlement(reply))])
        && destroyed == old(destroyed) && callSender == old(callSender) && inflight == old(inflight)
        && promise == old(promise) && target.outbox == old(target.outbox) && timer.state == old(timer.state)
    {
      if event.origin != origin || event.data.None? {
        return;
      }
      match event.data.value {
        case Syn => HandleSyn();
        case Ack(names) => HandleAck(names);
        case Call(id, methodName, _) => HandleCall(id, methodName, outcome);
        case Reply(_, _, _, _) => HandleReply(event.data.value);
        case _ =>
      }
    }
  }
}
