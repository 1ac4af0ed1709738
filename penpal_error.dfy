/**
 * Error objects of the connection layer: the two-valued error code, the
 * construction of a coded error, and the plain-object serialisation that
 * carries an error across the message channel.
 */
module PenpalError {
  import opened Wrappers

  /** The connection layer's own error taxonomy. */
  datatype ErrorCode = ConnectionDestroyed | ConnectionTimeout

  /** The string value each code carries (the enum is string-valued). */
  function CodeName(code: ErrorCode): string
  {
    match code
    case ConnectionDestroyed => "ConnectionDestroyed"
    case ConnectionTimeout => "ConnectionTimeout"
  }

  /** Reads a `code` property back as an error code; only the two names parse. */
  function ParseCode(s: string): (code: Option<ErrorCode>)
    ensures code.Some? <==> (s == "ConnectionDestroyed" || s == "ConnectionTimeout")
    ensures code.Some? ==> CodeName(code.value) == s
  {
    if s == "ConnectionDestroyed" then Some(ConnectionDestroyed)
    else if s == "ConnectionTimeout" then Some(ConnectionTimeout)
    else None
  }

  /** Every code's name parses back to that code, so the enum has exactly two distinguishable members. */
  lemma CodeNameParses(code: ErrorCode)
    ensures ParseCode(CodeName(code)) == Some(code)
    ensures code == ConnectionDestroyed || code == ConnectionTimeout
  {
  }

  /** A property value as this layer sees it: a string or `undefined`. */
  datatype Prop = Str(s: string) | Undefined

  /**
   * A JavaScript error object: `proto` is the name its prototype supplies
   * ("Error", "TypeError", ...) and `own` holds its own properties.
   */
  datatype JsError = JsError(proto: string, own: map<string, Prop>)

  /** The plain object an error is serialised into. */
  type SerializedError = map<string, Prop>

  /**
   * Property lookup through the prototype chain: an own property wins, and
   * `name` and `message` fall back to the prototype's defaults.
   */
  function Get(e: JsError, key: string): Prop
  {
    if key in e.own then e.own[key]
    else if key == "name" then Str(e.proto)
    else if key == "message" then Str("")
    else Undefined
  }

  /** The `code` property read as an error code, when it holds one. */
  function CodeOf(e: JsError): Option<ErrorCode>
  {
    match Get(e, "code")
    case Str(s) => ParseCode(s)
    case Undefined => None
  }

  /** `new Error(message)`: a plain Error whose only own property is the message, if one is given. */
  function NewError(message: Option<string>): (e: JsError)
    ensures e.proto == "Error" && Get(e, "name") == Str("Error")
    ensures Get(e, "message") == Str(message.OrElse(""))
    ensures CodeOf(e) == None
  {
    JsError("Error", if message.Some? then map["message" := Str(message.value)] else map[])
  }

  /** `createPenpalError(code, msg)`: a fresh Error carrying `msg` and the given code. */
  function CreatePenpalError(code: ErrorCode, msg: string): (e: JsError)
    ensures CodeOf(e) == Some(code)
    ensures Get(e, "message") == Str(msg) && Get(e, "name") == Str("Error")
  {
    var base := NewError(Some(msg));
    base.(own := base.own["code" := Str(CodeName(code))])
  }

  /** The three keys `serializeError` copies. */
  const SerializedKeys: set<string> := {"name", "message", "stack"}

  /** `serializeError`: copies `name`, `message` and `stack`, as looked up on the error, and nothing else. */
  function SerializeError(e: JsError): (obj: SerializedError)
    ensures obj.Keys == SerializedKeys
    ensures forall k :: k in obj ==> obj[k] == Get(e, k)
  {
    map["name" := Get(e, "name"), "message" := Get(e, "message"), "stack" := Get(e, "stack")]
  }

  /**
   * What `deserializeError` yields: a fresh `new Error()` on which every key
   * of the plain object has been assigned.
   */
  function DeserializedError(obj: SerializedError): (e: JsError)
    ensures e.proto == "Error"
    ensures forall k :: k in obj ==> Get(e, k) == obj[k]
    ensures forall k :: k !in obj ==> Get(e, k) == Get(NewError(None), k)
  {
    JsError("Error", obj)
  }

  /** `deserializeError`: assigns the plain object's keys one by one onto a fresh Error. */
  method DeserializeError(obj: SerializedError) returns (e: JsError)
    ensures e == DeserializedError(obj)
  {
    e := NewError(None);
    var todo := obj.Keys;
    while todo != {}
      invariant todo <= obj.Keys
      invariant e.proto == "Error"
      invariant e.own == map k | k in obj.Keys - todo :: obj[k]
      decreases todo
    {
      var k := Choose(todo);
      e := e.(own := e.own[k := obj[k]]);
      todo := todo - {k};
    }
  }

  /**
   * Round trip: deserialising a serialised error restores its `name`,
   * `message` and `stack`, and loses everything else, the `code` included.
   */
  lemma ErrorRoundTrip(e: JsError)
    ensures var d := DeserializedError(SerializeError(e));
      && Get(d, "name") == Get(e, "name")
      && Get(d, "message") == Get(e, "message")
      && Get(d, "stack") == Get(e, "stack")
      && CodeOf(d) == None
  {
  }
}
