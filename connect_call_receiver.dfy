/**
 * `connectCallReceiver`: answers every admitted Call with one Reply carrying
 * the settlement of the local method, serialising Error rejections, and
 * stops replying once destroyed.
 */
module ConnectCallReceiver {
  import opened Wrappers
  import opened PenpalError
  import opened Wire
  import opened Origin
  import opened Transport

  /** An admitted Call whose method promise has not yet settled, with how it will settle. */
  datatype Invocation = Invocation(id: int, methodName: string, outcome: Outcome)

  /** The TypeError the engine raises for calling `methods[methodName]` when it is not a function. */
  function NotAFunction(methodName: string): JsError
  {
    JsError("TypeError", map["message" := Str("methods[methodName] is not a function")])
  }

  /**
   * How `new Promise(resolve => resolve(methods[methodName](...args)))`
   * settles: with the method's own outcome, or, the lookup being unguarded,
   * rejected with a TypeError when the name is not a callable method.
   */
  function InvocationOutcome(methods: MethodTable, methodName: string, outcome: Outcome): (o: Outcome)
    ensures methodName in methods.callable ==> o == outcome
    ensures methodName !in methods.callable ==>
      o.Threw? && o.reason.ErrorValue? && Get(o.reason.error, "name") == Str("TypeError")
  {
    if methodName in methods.callable then outcome else Threw(ErrorValue(NotAFunction(methodName)))
  }

  /** The event is a Call admitted by the origin check. */
  predicate IsAdmittedCall(event: Event, originForReceiving: string)
  {
    event.data.Some? && event.data.value.Call? && CheckMessageOrigin(event.origin, originForReceiving)
  }

  /**
   * The Reply a promise handler builds: the Call's id and the matching
   * resolution; a rejection with an Error is replaced by its serialised form
   * and flagged, every other value passes unchanged.
   */
  function ReplyFor(id: int, outcome: Outcome): (m: Message)
    ensures m.Reply? && m.id == id
    ensures m.resolution == (if outcome.Returned? then Fulfilled else Resolution.Rejected)
    ensures m.returnValueIsError <==> (outcome.Threw? && outcome.reason.ErrorValue?)
    ensures m.returnValueIsError ==> m.returnValue == Object(SerializeError(outcome.reason.error))
    ensures !m.returnValueIsError ==>
      m.returnValue == (if outcome.Returned? then outcome.value else outcome.reason)
  {
    match outcome
    case Returned(v) => Reply(id, Fulfilled, v, false)
    case Threw(v) =>
      if v.ErrorValue? then Reply(id, Resolution.Rejected, Object(SerializeError(v.error)), true)
      else Reply(id, Resolution.Rejected, v, false)
  }

  /**
   * The Reply sent instead when sending the first one threw `err`: the same
   * Reply the Call would have got had the method itself thrown `err`.
   */
  function ErrorReplyFor(id: int, err: JsError): (m: Message)
    ensures m == ReplyFor(id, Threw(ErrorValue(err)))
    ensures m.Reply? && m.id == id && m.resolution == Resolution.Rejected && m.returnValueIsError
  {
    Reply(id, Resolution.Rejected, Object(SerializeError(err)), true)
  }

  class CallReceiver {
    const local: TargetWindow
    const remote: WindowRef
    const originForSending: string
    const originForReceiving: string
    const methods: MethodTable
    var destroyed: bool
    /** Admitted calls whose method promise is still unsettled. */
    var inflight: seq<Invocation>

    /** `connectCallReceiver`: installs the receiver's listener on the local window. */
    constructor (local: TargetWindow, remote: WindowRef, originForSending: string,
                 originForReceiving: string, methods: MethodTable)
      modifies local`listeners
      ensures this.local == local && this.remote == remote && this.methods == methods
      ensures this.originForSending == originForSending && this.originForReceiving == originForReceiving
      ensures !destroyed && inflight == []
      ensures local.listeners == old(local.listeners) + {ReceiverListener(this)}
    {
      this.local := local;
      this.remote := remote;
      this.originForSending := originForSending;
      this.originForReceiving := originForReceiving;
      this.methods := methods;
      destroyed := false;
      inflight := [];
      new;
      local.AddEventListener(ReceiverListener(this));
    }

    /**
     * `handleMessageEvent`: events without data, non-Call messages and Calls
     * from a refused origin are ignored; an admitted Call invokes the method
     * (whose own outcome, user code, is `outcome`) and awaits its settlement.
     */
    method HandleMessageEvent(event: Event, outcome: Outcome)
      requires ReceiverListener(this) in local.listeners
      modifies this`inflight
      ensures !IsAdmittedCall(event, originForReceiving) ==> inflight == old(inflight)
      ensures IsAdmittedCall(event, originForReceiving) ==>
        var call := event.data.value;
        inflight == old(inflight) + [Invocation(call.id, call.methodName, InvocationOutcome(methods, call.methodName, outcome))]
    {
      if !IsAdmittedCall(event, originForReceiving) {
        return;
      }
      var call := event.data.value;
      inflight := inflight + [Invocation(call.id, call.methodName, InvocationOutcome(methods, call.methodName, outcome))];
    }

    /**
     * The promise handler of invocation `k` runs. Once destroyed it sends
     * nothing. Otherwise it sends the Reply; if that step throws `sendFailure`
     * it sends a Rejected, flagged Reply with the same id describing the
     * failure and re-throws, or throws `retryFailure` if that send fails too.
     */
    method Settle(k: nat, sendFailure: Option<JsError>, retryFailure: Option<JsError>)
      returns (thrown: Option<JsError>)
      requires k < |inflight|
      modifies this`inflight, local`outbox
      ensures inflight == old(inflight[..k] + inflight[k + 1..])
      ensures destroyed ==> local.outbox == old(local.outbox) && thrown == None
      ensures !destroyed && sendFailure.None? ==>
        && local.outbox == old(local.outbox) + [Posted(remote, ReplyFor(old(inflight[k]).id, old(inflight[k]).outcome), originForSending)]
        && thrown == None
      ensures !destroyed && sendFailure.Some? ==>
        && local.outbox == old(local.outbox) +
             (if retryFailure.None? then [Posted(remote, ErrorReplyFor(old(inflight[k]).id, sendFailure.value), originForSending)] else [])
        && thrown == Some(retryFailure.OrElse(sendFailure.value))
    {
      var inv := inflight[k];
      inflight := inflight[..k] + inflight[k + 1..];
      thrown := None;
      if destroyed {
        return;
      }
      if sendFailure.None? {
        local.PostMessage(remote, ReplyFor(inv.id, inv.outcome), originForSending);
      } else if retryFailure.None? {
        local.PostMessage(remote, ErrorReplyFor(inv.id, sendFailure.value), originForSending);
        thrown := sendFailure;
      } else {
        thrown := retryFailure;
      }
    }

    /** The returned destroy closure: marks the receiver destroyed and removes its listener. */
    method Destroy()
      modifies this`destroyed, local`listeners
      ensures destroyed
      ensures local.listeners == old(local.listeners) - {ReceiverListener(this)}
    {
      destroyed := true;
      local.RemoveEventListener(ReceiverListener(this));
    }
  }
}
