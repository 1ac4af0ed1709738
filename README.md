# penpal-connect: handshake and call/reply engine

This project models the core of penpal-connect, a bridge that lets two
windows call each other's methods over `postMessage`. The model covers
four parts.

- **Handshake.** The child sends Syn. The parent answers with SynAck, listing its method names. The child answers with Ack, listing its own.
- **Binding.** Each side binds a *call receiver* and a *call sender* to the names the other side advertised. The receiver answers incoming Calls. The sender turns proxy calls into Calls and correlates the Replies by id.
- **Helpers.** The error-code taxonomy, error serialisation, the origin filter, the URL-to-origin extractor, the handshake timeout and the lifecycle destructor.
- **Two connection facades.** `connectToParent` is the child side, built from the modules. `connectToChild` is a self-contained parent variant with its own destroyed flag, strict origin check and handler registry.

Every handler is one step of a sequential state machine. The model makes the host explicit:

- Each window is a `Transport.TargetWindow`. It has an outbox of posted envelopes and a set of installed listeners, and each listener is tagged with its owner.
- The custom target of `connectToChild` is `ConnectToChild.ChildTarget`. It has an outbox, the `onMessage` subscribers and a count of `onDestroy` calls.
- The host timer is a `Timeout.Timer`, and its expiry is an explicit `Expire` step.
- A promise is a `Wire.Settlement`. Its first settlement wins.
- A closure that keeps mutable state becomes a class with those fields:
  - `CallSender`, `CallReceiver` and `AckHandler`;
  - `Destructor` and `HandlerRegistry`;
  - `ParentConnection` and `ChildConnection`.
- Destructor callbacks are data (`HandshakeMessageFactory.Teardown`). `Destroy` returns the invocations in order, and the owner runs them.

How each user method settles is an `Outcome` parameter. The fresh id that
`generateId` would supply is a parameter that the caller guarantees is unused.

Six behaviours of the code are easy to miss. The model keeps each of them.

- **Re-handshake.** On a second Ack, the Ack handler destroys the previous call receiver but not the previous call sender. Proxies the consumer kept from the earlier handshake still send Calls. (`AckHandler.HandleAck` states that the old sender is untouched.)
- **SynAck tag.** Two message-type enums ship side by side. `src/option.ts` tags SynAck as `syn-ack`, while `src/options.ts` tags it `synAck`. A `connectToChild` parent and a `connectToParent` child therefore disagree on that one tag (`Wire.SynAckTagsDisagree`).
- **Origin check in `connectToChild`.** It compares origins for strict equality, so its default origin `*` admits only messages whose origin is the literal string `*`.
- **Error replies in `connectToChild`.** An Error rejection is answered with a plain `{code, name, message}` object and no error flag. The caller therefore receives a plain object, not an Error (`CallRoundTrip.ChildErrorReplyIsPlainObject`).
- **Calls pending at an Ack.** An Ack clears `connectToChild`'s reply handlers, so calls still pending at that point never settle.
- **Calls pending at a destroy.** Neither destroy rejects pending calls. The call sender's destroy only sets its flag (`src/modules/connectCallSender.ts:93-95`), and `connectToChild`'s destroy only sets its flag and calls the target's hook (`src/connectToChild.ts:56-61`). A call whose Reply never comes stays pending (`CallSender.Destroy`, `ChildConnection.Destroy`).

`checkMessageOrigin` appears twice, in `src/utils.ts:31-33` and `src/option.ts:36-38`, with the same body. Both are modelled by `Origin.CheckMessageOrigin`.

## Model

| member | source | states |
|---|---|---|
| Origin.CheckMessageOrigin | src/utils.ts:31-33 | with the wildcard expected origin every remote origin is admitted; otherwise admission holds exactly when the two origins are equal (the identical copy at src/option.ts:36-38 is the same predicate) |
| Origin.GetOriginFromUrl | src/option.ts:41-48 | a found origin is always a prefix of the input URL |
| Origin.GetOriginFromUrlMatchesRegex | src/option.ts:42-47 | an origin is found exactly when the URL matches the pattern: an optional case-insensitive `http:`/`https:`, then `//`, then at least one non-slash character, then a slash or the end. The result is exactly the captured group, for the one match length that exists |
| Origin.OriginHasNoPath | src/option.ts:42-45 | a found origin starts with an optional scheme and `//`, and contains no slash after them |
| Origin.RejectedUrls | src/option.ts:42-47 | `ftp://x`, a bare `//`, an empty host (`https:///x`) and a relative path yield no origin |
| Origin.AcceptedUrls | src/option.ts:42-45 | `HTTPS://a.b:8080/p/q` yields `HTTPS://a.b:8080` (scheme case ignored, port kept, path cut); a scheme-relative `//host` yields itself |
| PenpalError.ParseCode | src/PenpalError.ts:1-4 | a code property parses exactly when it is one of the two code names, and parses back to the code of that name |
| PenpalError.CodeNameParses | src/PenpalError.ts:1-4 | every error code round-trips through its string value, and there are exactly two codes |
| PenpalError.NewError | src/PenpalError.ts:12 | `new Error(msg)` is named `Error`, carries the message (empty when none is given) and has no code |
| PenpalError.CreatePenpalError | src/PenpalError.ts:11-15 | the error has the given code and message and is a plain `Error` |
| PenpalError.SerializeError | src/PenpalError.ts:26-30 | the plain object has exactly the keys name, message and stack, each holding what the error yields for it (prototype defaults included) |
| PenpalError.DeserializedError | src/PenpalError.ts:35-43 | the fresh Error yields every key of the plain object, and the defaults of `new Error()` elsewhere |
| PenpalError.DeserializeError | src/PenpalError.ts:35-43 | the key-by-key assignment loop builds exactly that Error, whatever order the keys are visited in |
| PenpalError.ErrorRoundTrip | src/PenpalError.ts:26-43 | deserialising a serialised error restores name, message and stack, and loses the code |
| Wire.Settlement.SettleWith | src/option.ts:51-58 | a pending promise takes the new settlement; a settled one keeps its own |
| Wire.OptionsTag | src/options.ts:3-11 | under the options.ts enum every message kind but a foreign one has a tag |
| Wire.OptionTag | src/option.ts:67-77 | under the option.ts enum exactly Ping, Pong and foreign messages have no tag |
| Wire.TagsIdentifyKind | src/options.ts:3-11 | two messages get the same options.ts tag exactly when they are of the same kind; the same holds for every kind the option.ts enum tags, so comparing `penpal` with one enum member selects one kind |
| Wire.SynAckTagsDisagree | src/options.ts:3-11 | the two message-type enums give SynAck different tags, and agree on every other kind they share |
| Timeout.Timer.StartTimeout | src/utils.ts:7-18 | a timer is armed only when a timeout is given, with the message `Connection timed out after <n>ms` |
| Timeout.Timer.ConnectionTimeout | src/option.ts:12-23 | the option.ts guard: armed only when a timeout is given, with the message `握手连接超时(<n>ms)` |
| Timeout.Timer.Stop | src/utils.ts:20-22 | stopping an armed timer disarms it. Stopping an absent, stopped or fired timer changes nothing |
| Timeout.Timer.Expire | src/utils.ts:11-17 | only an armed timer runs its callback. It runs once, and the error it passes has code ConnectionTimeout and the timer's message |
| CreateDestructor.Destructor.constructor | src/modules/createDestructor.ts:16-18 | a destructor starts with no callbacks and not destroyed |
| CreateDestructor.Destructor.Destroy | src/modules/createDestructor.ts:21-29 | the first destroy marks it destroyed and runs every registered callback once, in registration order, with the given error. Every later destroy runs nothing |
| CreateDestructor.Destructor.OnDestroy | src/modules/createDestructor.ts:30-32 | before destruction, a callback is only appended. After destruction, it runs at once with no error and is not stored |
| CreateHandlerFactory.HandlerRegistry.constructor | src/createHandlerFactory.ts:1-2 | the registry starts empty |
| CreateHandlerFactory.HandlerRegistry.Handle | src/createHandlerFactory.ts:5-9 | `handle` invokes the callback of every registered id exactly once. It adds and removes no entry, so an empty registry invokes nothing |
| CreateHandlerFactory.HandlerRegistry.OnHandle | src/createHandlerFactory.ts:10-12 | stores the callback under the id, replacing any earlier one |
| CreateHandlerFactory.HandlerRegistry.Del | src/createHandlerFactory.ts:13-15 | removes that id and leaves every other entry unchanged |
| CreateHandlerFactory.HandlerRegistry.Destroy | src/createHandlerFactory.ts:16-21 | deleting every key of a snapshot empties the registry |
| ConnectCallSender.ProxiesFor | src/modules/connectCallSender.ts:85-89 | the reduced proxy table has exactly one key per listed name, each mapped to a proxy for that name on this sender |
| ConnectCallSender.ProxyTable.Delete | src/modules/handshakeMessageFactory.ts:164-166 | removes that name from the shared table, and only that name |
| ConnectCallSender.ReplySettlement | src/modules/connectCallSender.ts:62-70 | a Reply settles its call: Fulfilled resolves and anything else rejects. The value is deserialised into an Error exactly when the error flag is set, and otherwise passes as sent |
| ConnectCallSender.CallSender.constructor | src/modules/connectCallSender.ts:21-31 | binding adds a proxy for every advertised name to the caller's table. Keys not in the list are left as they were |
| ConnectCallSender.CallSender.Call | src/modules/connectCallSender.ts:35-82 | after destroy, a call throws ConnectionDestroyed with its message and sends nothing. Otherwise it records a pending call under the fresh id, installs that id's reply listener and sends exactly one Call with the id, name and args to the remote with `originForSending` |
| ConnectCallSender.CallSender.HandleReply | src/modules/connectCallSender.ts:46-71 | a non-Reply, a Reply to another id, or a Reply from a refused origin leaves the call pending with its listener. The matching admitted Reply removes the listener and settles the call as `ReplySettlement` says |
| ConnectCallSender.CallSender.Destroy | src/modules/connectCallSender.ts:93-95 | destroy sets the flag and nothing else; pending calls keep their listeners |
| ConnectCallReceiver.InvocationOutcome | src/modules/connectCallReceiver.ts:84-88 | a callable method settles as it does. An unknown or non-function name rejects with a TypeError, because the lookup is unguarded |
| ConnectCallReceiver.ReplyFor | src/modules/connectCallReceiver.ts:50-63 | the Reply carries the Call's id and the resolution that matches the outcome. An Error rejection is replaced by its serialised name, message and stack and is flagged. Any other value passes unchanged and unflagged |
| ConnectCallReceiver.CallReceiver.constructor | src/modules/connectCallReceiver.ts:27-91 | binding installs the receiver's listener on the local window (line 91), not destroyed (line 27) and with nothing in flight |
| ConnectCallReceiver.CallReceiver.HandleMessageEvent | src/modules/connectCallReceiver.ts:29-39 | an event without data, a non-Call message, or a Call from a refused origin starts nothing. An admitted Call starts exactly one invocation with its id and name |
| ConnectCallReceiver.CallReceiver.Settle | src/modules/connectCallReceiver.ts:43-81 | a settled invocation sends nothing once the receiver is destroyed. Otherwise it sends its Reply. If that send throws, it sends a flagged rejection describing the failure with the same id and re-throws |
| ConnectCallReceiver.CallReceiver.Destroy | src/modules/connectCallReceiver.ts:93-97 | destroy marks the receiver destroyed and removes its listener |
| ConnectCallReceiver.ErrorReplyFor | src/modules/connectCallReceiver.ts:69-75 | the fallback Reply for a failed send is the very Reply the Call would have got had the method thrown the send failure: same id, rejected, flagged, carrying the serialised failure |
| CallRoundTrip.ReplySettlesAsMethodDid | src/modules/connectCallReceiver.ts:50-63 | a receiver's Reply, read back by the sender's settlement (src/modules/connectCallSender.ts:62-70), settles the call as the remote method settled. An Error arrives as an Error with the same name, message and stack |
| CallRoundTrip.ErrorReplyRejectsWithFailure | src/modules/connectCallReceiver.ts:69-77 | the fallback Reply rejects the call with an Error that describes the send failure |
| CallRoundTrip.TypeErrorExample | src/modules/connectCallSender.ts:64-70 | a remote `TypeError("bad arg")` reaches the caller as a rejected plain `Error` whose own `name` is `TypeError` and whose `message` is `bad arg`; its prototype is not carried over |
| CallRoundTrip.ChildErrorReplyIsPlainObject | src/connectToChild.ts:172-181 | a `connectToChild` Error reply rejects the caller with a plain object holding the Error's code, name and message |
| HandshakeMessageFactory.AdvertisedNames | src/modules/handshakeMessageFactory.ts:98 | a SynAck or Ack carrying names yields exactly those names; any other data yields none (the same read is at line 169) |
| HandshakeMessageFactory.HandleSyn | src/modules/handshakeMessageFactory.ts:38-54 | from a refused origin, nothing is sent. Otherwise exactly one SynAck listing the local method keys goes to the event's source (or the target) with `originForSending` |
| HandshakeMessageFactory.HandleSynAck | src/modules/handshakeMessageFactory.ts:70-115 | from a refused origin, nothing changes and no table is returned. Otherwise: one Ack listing the local keys goes to the parent (or the target) with the expected origin; a receiver and a sender are bound with the event's origin and their destroyers registered (a destroyed destructor runs them at once); a fresh table is returned whose keys are exactly the advertised names. An admitted event without data throws a TypeError after the Ack and the receiver: no sender is bound and no table is returned |
| HandshakeMessageFactory.AckHandler.constructor | src/modules/handshakeMessageFactory.ts:121-133 | the handler starts with no receiver, no names and an empty shared table |
| HandshakeMessageFactory.AckHandler.HandleAck | src/modules/handshakeMessageFactory.ts:135-186 | from a refused origin, nothing changes. Otherwise: the previous receiver is destroyed, its in-flight invocations untouched, before a new one with nothing in flight is bound; the previously advertised names are deleted before the new proxies are added, so the shared table holds exactly the new names; both destroyers are registered; the same shared table is returned. The handler sends nothing. An admitted event without data throws a TypeError once the receiver is rebound and the old names are deleted: the remembered names and the sender stay, and no table is returned |
| ConnectToParent.ParentConnection.constructor | src/connectToParent.ts:26-88 | creation arms the timeout when one is given, with the message `Connection timed out after <n>ms`, installs the handshake listener, sends exactly one Syn without names to the parent (or the target) with the expected origin (default `*`), and registers the connection's own teardown |
| ConnectToParent.ParentConnection.HandleMessage | src/connectToParent.ts:55-73 | events without data, from a refused origin, or of any kind but SynAck change nothing. An admitted SynAck removes the listener, stops the timer and resolves the promise with a table holding exactly the advertised names. The bound receiver and sender talk to the parent (or the target) with the SynAck's origin, start with nothing in flight or pending, and the receiver serves the local methods. The invariant keeps the listener installed only while the connection is neither destroyed nor connected, so at most one handshake completes |
| ConnectToParent.ParentConnection.DestroyWith | src/connectToParent.ts:79-86 | the first destruction removes the handshake listener, rejects a pending promise only when an error is given, and destroys the bound receiver and sender. Later destructions change nothing. The sender's pending calls and the receiver's in-flight invocations are left as they were |
| ConnectToParent.ParentConnection.Destroy | src/connectToParent.ts:92-95 | the consumer's destroy tears down as above but never changes the promise; a later destroy changes nothing; pending calls and in-flight invocations are left as they were |
| ConnectToParent.ParentConnection.Expire | src/connectToParent.ts:54 | an armed timer that expires while handshaking destroys the connection and rejects the promise with a ConnectionTimeout error. Otherwise the promise and listeners are unchanged. Either way pending calls and in-flight invocations are left as they were |
| ConnectToChild.ProxyTableFor | src/connectToChild.ts:92-97 | the rebuilt table has exactly one proxy per advertised name, and none when no names are given |
| ConnectToChild.ChildReplyFor | src/connectToChild.ts:163-185 | the Reply carries the call's id and the outcome's resolution, and is never flagged. An Error reason becomes a plain object holding exactly the Error's code, name and message |
| ConnectToChild.ChildConnection.constructor | src/connectToChild.ts:34-43 | creation arms the option.ts timeout when one is given, with the message `握手连接超时(<n>ms)`, and subscribes to the target's messages, with nothing pending |
| ConnectToChild.ChildConnection.SendData | src/connectToChild.ts:46-53 | sends the data to the target with the configured origin, or nothing while destroyed |
| ConnectToChild.ChildConnection.Destroy | src/connectToChild.ts:56-61 | destroy marks the connection destroyed and calls the target's hook exactly when the target has one |
| ConnectToChild.ChildConnection.Expire | src/connectToChild.ts:63-66 | an armed timer's expiry marks the connection destroyed and rejects a pending promise with a ConnectionTimeout error |
| ConnectToChild.ChildConnection.HandleSyn | src/connectToChild.ts:68-75 | a Syn is answered with one SynAck listing the local method keys, unless the connection is destroyed |
| ConnectToChild.ChildConnection.HandleAck | src/connectToChild.ts:78-103 | an Ack revives the connection, removes every earlier proxy, clears every reply handler, installs exactly the advertised names, stops the timer and resolves a pending promise. This holds even after a destroy or a timeout |
| ConnectToChild.ChildConnection.CallProxy | src/connectToChild.ts:106-145 | while destroyed, a call throws ConnectionDestroyed and changes nothing. Otherwise it records a pending call, registers its reply handler under the fresh id, and sends exactly one Call with that id |
| ConnectToChild.ChildConnection.HandleReply | src/connectToChild.ts:116-133 | offered to every handler, a Reply is taken only by the handler registered under its id. That handler deletes itself and settles the call. A Reply for no registered id changes nothing, so each call settles at most once |
| ConnectToChild.ChildConnection.HandleCall | src/connectToChild.ts:148-161 | an incoming Call is dropped without reply while destroyed, or when its name is not a callable method. Otherwise one invocation starts |
| ConnectToChild.ChildConnection.Settle | src/connectToChild.ts:163-192 | a settled invocation sends its reply, unless the connection is destroyed by then |
| ConnectToChild.ChildConnection.HandleMessageEvent | src/connectToChild.ts:200-216 | a message whose origin is not exactly the configured one (even `*`), an event without data, or any other kind changes nothing; an admitted Syn, Ack, Call or Reply has exactly the effect its handler states and changes nothing else: a Syn only sends a SynAck unless destroyed; an Ack only revives, installs exactly the advertised proxies, clears the reply handlers, stops the timer and resolves a pending promise; a Call only starts one invocation unless destroyed or not callable; a Reply only settles the matching call once and drops its handler |

## Left out

- Host delivery of messages, and the browser's `postMessage`, `addEventListener` and `removeEventListener`. Windows are an outbox and a listener set, and which listener sees which event is up to the caller of the handler methods.
- Promise scheduling (`defer`, `new Promise(...).then`). Settlement is explicit state. A method's outcome is given when its Call arrives (a parameter of `CallReceiver.HandleMessageEvent` and `ChildConnection.HandleCall`, kept with the in-flight invocation), and its Reply is sent by a separate `Settle` step.
- Real timers, `Date.now` and the connection-time log. Expiry is an explicit step.
- `generateId` is not part of this model. Call ids are parameters that the caller guarantees are fresh.
- Logging and the `connectType` tag. Their text is diagnostics only.
- `JSON.stringify` in the log arguments. These arguments are built even when the logger is the no-op default, and `JSON.stringify` throws on BigInt and cyclic values, which `postMessage` carries. The model's `Wire.Value` has neither, so these throws cannot arise in it. The handlers they would abort are therefore not modelled:
  - the call sender's reply listener (`src/modules/connectCallSender.ts:59`), which throws before removing its listener, so the call never settles;
  - the call receiver's Call handler (`src/modules/connectCallReceiver.ts:41`) and `connectToChild`'s Call handler (`src/connectToChild.ts:155`), which throw before the method is invoked, so no Reply is sent;
  - `connectToChild`'s reply step (`src/connectToChild.ts:183`), which throws inside the `.then` handler, so no Reply is sent.
  The throw at `src/modules/connectCallReceiver.ts:66` is inside the `try`, and `CallReceiver.Settle`'s `sendFailure` covers it.
- Engine behaviour: the `stack` of a fresh Error, and `instanceof Error` on cross-realm values. A value is an Error exactly when it is the `ErrorValue` case.
- The order in which `Object.keys` visits keys. The registry, key-deletion and deserialisation loops are proved for every visiting order.
- Events whose `data` is absent. The call sender's reply listener (`src/modules/connectCallSender.ts:48`) and `connectToChild`'s dispatch (`src/connectToChild.ts:206`) throw a TypeError before changing anything; the model changes nothing and does not report the throw. The SynAck and Ack handlers are modelled with the effects they have before they throw (`threw`).
- Timeouts are `int` milliseconds. A JavaScript number may be fractional, negative zero, infinite or NaN, and its decimal text for those is not modelled.
- `methods[methodName]` (`src/modules/connectCallReceiver.ts:85`) also finds inherited functions such as `toString`. `MethodTable.callable` is the set of names whose lookup yields a function, so such names belong in it; the model does not derive it from a prototype chain.
- The `AsyncMethodReturns` type mapping, the remaining records of `src/types.d.ts`, and the `ConnectOptions` defaults for `log` and `methods`. These are types and defaults, not behaviour.
- `src/index.ts` re-exports, the demo pages and the bundler configuration. They are not part of the core.
- The unused Ping/Pong message kinds. They are carried in the message type, and every handler ignores them.
