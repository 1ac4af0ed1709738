/**
 * The two halves of the call engine composed: a Reply built by the receiver
 * settles the sender's call the way the remote method settled; a Reply
 * built by `connectToChild` keeps an Error's code but arrives as a plain
 * object, never as an Error.
 */
module CallRoundTrip {
  import opened PenpalError
  import opened Wire
  import ConnectCallSender
  import ConnectCallReceiver
  import ConnectToChild

  /**
   * A returned value resolves the call with that value; a thrown non-Error
   * rejects it with that value; a thrown Error rejects it with an Error of
   * the same name, message and stack (but not its code or other properties).
   */
  lemma ReplySettlesAsMethodDid(id: int, outcome: Outcome)
    ensures var s := ConnectCallSender.ReplySettlement(ConnectCallReceiver.ReplyFor(id, outcome));
      && (outcome.Returned? ==> s == Resolved(outcome.value))
      && (outcome.Threw? && !outcome.reason.ErrorValue? ==> s == RejectedWith(outcome.reason))
      && (outcome.Threw? && outcome.reason.ErrorValue? ==>
            && s.RejectedWith? && s.reason.ErrorValue?
            && SameSerialisedFields(s.reason.error, outcome.reason.error))
  {
  }

  /** The fields that survive serialisation agree. */
  predicate SameSerialisedFields(d: JsError, e: JsError)
  {
    Get(d, "name") == Get(e, "name") && Get(d, "message") == Get(e, "message") && Get(d, "stack") == Get(e, "stack")
  }

  /** The fallback Reply sent after a failed send rejects the call with an Error describing the failure. */
  lemma ErrorReplyRejectsWithFailure(id: int, err: JsError)
    ensures var s := ConnectCallSender.ReplySettlement(ConnectCallReceiver.ErrorReplyFor(id, err));
      s.RejectedWith? && s.reason.ErrorValue? && SameSerialisedFields(s.reason.error, err)
  {
  }

  /** A remote TypeError("bad arg") reaches the caller as a rejection with that name and message. */
  lemma TypeErrorExample(id: int)
    ensures var e := JsError("TypeError", map["message" := Str("bad arg")]);
      var s := ConnectCallSender.ReplySettlement(ConnectCallReceiver.ReplyFor(id, Threw(ErrorValue(e))));
      s.RejectedWith? && s.reason.ErrorValue?
      && Get(s.reason.error, "name") == Str("TypeError") && Get(s.reason.error, "message") == Str("bad arg")
  {
  }

  /**
   * A `connectToChild` reply to a thrown Error rejects the caller's call with
   * a plain object, not an Error, whose code, name and message are the
   * Error's.
   */
  lemma ChildErrorReplyIsPlainObject(id: int, e: JsError)
    ensures var s := ConnectCallSender.ReplySettlement(ConnectToChild.ChildReplyFor(id, Threw(ErrorValue(e))));
      && s.RejectedWith? && s.reason.Object?
      && s.reason.props == map["code" := Get(e, "code"), "name" := Get(e, "name"), "message" := Get(e, "message")]
  {
  }
}
