/**
 * The protocol's data model: window handles, carried values, the message
 * envelope (Syn, SynAck, Ack, Call, Reply and the unused Ping/Pong kinds),
 * inbound events, method tables, method outcomes and promise settlement.
 */
module Wire {
  import opened Wrappers
  import opened PenpalError

  /** A handle on a window (the local target, its parent, an event's source). */
  datatype WindowRef = Window(id: nat)

  /** A value carried as a call argument or a return value. */
  datatype Value =
    | Data(n: int)                         // any plain data the application passes
    | ErrorValue(error: JsError)           // an Error instance
    | Object(props: map<string, Prop>)     // a plain object, such as a serialised error

  /** The enumerable own keys `Object.keys` sees on a value. */
  function PlainKeys(v: Value): SerializedError
  {
    match v
    case Object(props) => props
    case _ => map[]
  }

  datatype Resolution = Fulfilled | Rejected

  /** The `data` of a message event. */
  datatype Message =
    | Syn
    | SynAck(methodNames: Option<seq<string>>)
    | Ack(methodNames: Option<seq<string>>)
    | Ping
    | Pong
    | Call(id: int, methodName: string, args: seq<Value>)
    | Reply(id: int, resolution: Resolution, returnValue: Value, returnValueIsError: bool)
    | Foreign                              // data whose `penpal` tag is none of the above

  /** The `penpal` tag of a message under the enum of src/options.ts. */
  function OptionsTag(m: Message): (tag: Option<string>)
    ensures tag.None? <==> m.Foreign?
  {
    match m
    case Syn => Some("syn")
    case SynAck(_) => Some("synAck")
    case Ack(_) => Some("ack")
    case Ping => Some("ping")
    case Pong => Some("pong")
    case Call(_, _, _) => Some("call")
    case Reply(_, _, _, _) => Some("reply")
    case Foreign => None
  }

  /** The `penpal` tag of a message under the enum of src/option.ts, which has no Ping/Pong. */
  function OptionTag(m: Message): (tag: Option<string>)
    ensures tag.None? <==> (m.Ping? || m.Pong? || m.Foreign?)
  {
    match m
    case Syn => Some("syn")
    case SynAck(_) => Some("syn-ack")
    case Ack(_) => Some("ack")
    case Call(_, _, _) => Some("call")
    case Reply(_, _, _, _) => Some("reply")
    case _ => None
  }

  /** The two messages are of the same kind (same constructor). */
  predicate SameKind(m: Message, n: Message)
  {
    || (m.Syn? && n.Syn?) || (m.SynAck? && n.SynAck?) || (m.Ack? && n.Ack?)
    || (m.Ping? && n.Ping?) || (m.Pong? && n.Pong?) || (m.Call? && n.Call?)
    || (m.Reply? && n.Reply?) || (m.Foreign? && n.Foreign?)
  }

  /**
   * Under either enum a tag names exactly one kind of message, so a handler
   * that compares `data.penpal` with one enum member sees that kind and no
   * other.
   */
  lemma TagsIdentifyKind(m: Message, n: Message)
    ensures OptionsTag(m) == OptionsTag(n) <==> SameKind(m, n)
    ensures OptionTag(m).Some? ==> (OptionTag(m) == OptionTag(n) <==> SameKind(m, n))
  {
  }

  /**
   * The two enums agree on every tag but SynAck: the SynAck that
   * connectToChild writes carries a tag no message of the other enum
   * carries, so the connectToParent side cannot recognise it on the wire.
   */
  lemma SynAckTagsDisagree(m: Message, names: Option<seq<string>>)
    ensures OptionsTag(m) != OptionTag(SynAck(names))
    ensures !m.SynAck? && !m.Ping? && !m.Pong? ==> OptionsTag(m) == OptionTag(m)
  {
  }

  /** A message event as a listener receives it. */
  datatype Event = Event(data: Option<Message>, origin: string, source: Option<WindowRef>)

  /** One `postMessage` call: the window it went to, the data and the target origin. */
  datatype Posted = Posted(to: WindowRef, message: Message, targetOrigin: string)

  /**
   * The methods a side exposes: `Object.keys(methods)` in order, and the
   * names whose lookup `methods[name]` yields a function.
   */
  datatype MethodTable = MethodTable(keys: seq<string>, callable: set<string>)

  /** How the promise around a local method's result settles. */
  datatype Outcome = Returned(value: Value) | Threw(reason: Value)

  /** The state of a promise. */
  datatype Settlement<+T> = Pending | Resolved(value: T) | RejectedWith(reason: Value)
  {
    /** Settling a promise: the first settlement wins, later ones are ignored. */
    function SettleWith(next: Settlement<T>): (r: Settlement<T>)
      ensures Pending? ==> r == next
      ensures !Pending? ==> r == this
    {
      if Pending? then next else this
    }
  }
}
