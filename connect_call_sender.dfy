/**
 * `connectCallSender`: fills a proxy table with one proxy per remote method
 * name; each proxy call sends a Call under a fresh id and installs a listener
 * that settles the call from the matching Reply.
 */
module ConnectCallSender {
  import opened Wrappers
  import opened PenpalError
  import opened Wire
  import opened Origin
  import opened Transport

  /** A method proxy: calling it issues a Call for `methodName` through `sender`. */
  datatype Proxy = Proxy(sender: CallSender, methodName: string)

  /** The `callSender` object the proxies are assigned into. */
  class ProxyTable {
    var entries: map<string, Proxy>

    constructor ()
      ensures entries == map[]
    {
      entries := map[];
    }

    /** `delete callSender[name]`. */
    method Delete(name: string)
      modifies this
      ensures entries == old(entries) - {name}
    {
      entries := entries - {name};
    }
  }

  /** The `reduce` over the method names: one proxy per name, later duplicates overwriting earlier ones. */
  function ProxiesFor(sender: CallSender, names: seq<string>): (m: map<string, Proxy>)
    ensures m.Keys == set n | n in names
    ensures forall n :: n in m ==> m[n] == Proxy(sender, n)
    decreases |names|
  {
    if names == [] then map[]
    else
      var last := names[|names| - 1];
      ProxiesFor(sender, names[..|names| - 1])[last := Proxy(sender, last)]
  }

  /** The event is a Reply to call `id` (whatever its origin). */
  predicate IsReplyTo(event: Event, id: int)
  {
    event.data.Some? && event.data.value.Reply? && event.data.value.id == id
  }

  /**
   * How a Reply settles its call: the value is deserialised into an Error
   * first when `returnValueIsError` is set; Fulfilled resolves, Rejected rejects.
   */
  function ReplySettlement(reply: Message): (s: Settlement<Value>)
    requires reply.Reply?
    ensures s != Pending
    ensures s.Resolved? <==> reply.resolution == Fulfilled
    ensures reply.returnValueIsError ==>
      (if s.Resolved? then s.value else s.reason) == ErrorValue(DeserializedError(PlainKeys(reply.returnValue)))
    ensures !reply.returnValueIsError ==>
      (if s.Resolved? then s.value else s.reason) == reply.returnValue
  {
    var v := if reply.returnValueIsError
      then ErrorValue(DeserializedError(PlainKeys(reply.returnValue)))
      else reply.returnValue;
    if reply.resolution == Fulfilled then Resolved(v) else RejectedWith(v)
  }

  /** The message of the error a proxy throws once the sender is destroyed. */
  function DestroyedCallMessage(methodName: string): string
  {
    "连接已中断，无法发送 " + methodName + "() 调用"
  }

  class CallSender {
    const local: TargetWindow
    const remote: WindowRef
    const originForSending: string
    const originForReceiving: string
    var destroyed: bool
    /** The promise of every call made, by call id. */
    var calls: map<int, Settlement<Value>>

    /**
     * `connectCallSender`: assigns a proxy for every name into `callSender`,
     * leaving the table's other keys as they were.
     */
    constructor (local: TargetWindow, remote: WindowRef, originForSending: string,
                 originForReceiving: string, callSender: ProxyTable, methodKeyPaths: seq<string>)
      modifies callSender
      ensures this.local == local && this.remote == remote
      ensures this.originForSending == originForSending && this.originForReceiving == originForReceiving
      ensures !destroyed && calls == map[]
      ensures callSender.entries == old(callSender.entries) + ProxiesFor(this, methodKeyPaths)
    {
      this.local := local;
      this.remote := remote;
      this.originForSending := originForSending;
      this.originForReceiving := originForReceiving;
      destroyed := false;
      calls := map[];
      new;
      callSender.entries := callSender.entries + ProxiesFor(this, methodKeyPaths);
    }

    /**
     * A proxy call with the fresh id `id` from the id supplier. Once the sender
     * is destroyed it throws a ConnectionDestroyed error and sends nothing;
     * otherwise it installs the reply listener for `id` and sends one Call.
     */
    method Call(methodName: string, args: seq<Value>, id: int) returns (thrown: Option<JsError>)
      requires id !in calls
      modifies this`calls, local`outbox, local`listeners
      ensures destroyed ==>
        && thrown.Some? && CodeOf(thrown.value) == Some(ConnectionDestroyed)
        && Get(thrown.value, "message") == Str(DestroyedCallMessage(methodName))
        && calls == old(calls) && local.outbox == old(local.outbox) && local.listeners == old(local.listeners)
      ensures !destroyed ==>
        && thrown == None
        && calls == old(calls)[id := Pending]
        && local.listeners == old(local.listeners) + {ReplyListener(this, id)}
        && local.outbox == old(local.outbox) + [Posted(remote, Message.Call(id, methodName, args), originForSending)]
    {
      if destroyed {
        thrown := Some(CreatePenpalError(ConnectionDestroyed, DestroyedCallMessage(methodName)));
        return;
      }
      thrown := None;
      calls := calls[id := Pending];
      local.AddEventListener(ReplyListener(this, id));
      local.PostMessage(remote, Message.Call(id, methodName, args), originForSending);
    }

    /**
     * The reply listener of call `id`. Anything but a Reply to `id`, or a
     * Reply from an origin the check refuses, leaves the call pending; the
     * matching admitted Reply removes the listener and settles the call.
     * (An event without data makes `connectCallSender`'s listener throw before any change.)
     */
    method HandleReply(id: int, event: Event)
      requires ReplyListener(this, id) in local.listeners && id in calls
      modifies this`calls, local`listeners
      ensures !(IsReplyTo(event, id) && CheckMessageOrigin(event.origin, originForReceiving)) ==>
        calls == old(calls) && local.listeners == old(local.listeners)
      ensures IsReplyTo(event, id) && CheckMessageOrigin(event.origin, originForReceiving) ==>
        && local.listeners == old(local.listeners) - {ReplyListener(this, id)}
        && calls == old(calls)[id := old(calls)[id].SettleWith(ReplySettlement(event.data.value))]
    {
      if !IsReplyTo(event, id) || !CheckMessageOrigin(event.origin, originForReceiving) {
        return;
      }
      var reply := event.data.value;
      local.RemoveEventListener(ReplyListener(this, id));
      var returnValue := reply.returnValue;
      if reply.returnValueIsError {
        var e := DeserializeError(PlainKeys(reply.returnValue));
        returnValue := ErrorValue(e);
      }
      var outcome := if reply.resolution == Fulfilled then Resolved(returnValue) else RejectedWith(returnValue);
      calls := calls[id := calls[id].SettleWith(outcome)];
    }

    /** The returned destroy closure: only sets the flag; pending calls keep their listeners and stay pending. */
    method Destroy()
      modifies this`destroyed
      ensures destroyed
    {
      destroyed := true;
    }
  }
}
