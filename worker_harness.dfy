/**
 * The worker-side dispatcher (`_promisedWorker`): it decodes each inbound
 * request, runs the user operation on the payload, normalises what the
 * operation did into at most one response envelope, encodes it and posts it
 * back. Everything here is a pure function of the inbound text, the
 * operation's behaviour and the host.
 */
module WorkerHarness {
  import opened Wrappers
  import opened Json

  /** How a thenable returned by the operation eventually settles. */
  datatype Settlement = Fulfils(value: Value) | Rejects(reason: Value) | NeverSettles

  /** What one call of the user operation does. The try/catch of `safeExec`
      is what turns a synchronous throw into `Threw`; a returned value with a
      callable `then` is `Deferred`, any other returned value is `Returned`. */
  datatype Invocation = Threw(error: Value) | Returned(value: Value) | Deferred(settles: Settlement)

  /** The user operation: invoked with exactly one argument, the decoded payload. */
  type Operation = Value -> Invocation

  /** Where the worker posts its reply: `self.postMessage` (a dedicated
      worker) or the first transferred port (a service worker). */
  datatype Route = ToSelf | ToPort
  datatype Host = Host(selfCanPost: bool, hasPort: bool)
  datatype Reply = Reply(text: string, route: Route)

  /** The failure envelope `[messageId, {message}]`. */
  function ErrorEnvelope(id: Value, message: Value): (env: Value) {
    Arr([id, Obj(map["message" := message])])
  }

  /** The success envelope `[messageId, null, result]`. */
  function SuccessEnvelope(id: Value, result: Value): (env: Value) {
    Arr([id, Null, result])
  }

  /** The envelope `postMsg` builds: a failure envelope carrying `err.message`
      when `err` is truthy, a success envelope otherwise. Either way it is an
      array led by the request's id. */
  function PostMsg(id: Value, err: Value, result: Value): (env: Value)
    ensures env.Arr? && 2 <= |env.items| <= 3 && env.items[0] == id
    ensures |env.items| == 2 <==> Truthy(err)
    ensures Truthy(err) ==> Prop(env.items[1], "message") == Prop(err, "message")
    ensures Truthy(err) ==> env == ErrorEnvelope(id, Prop(err, "message"))
    ensures !Truthy(err) ==> env.items[1] == Null && env.items[2] == result
  {
    if Truthy(err) then ErrorEnvelope(id, Prop(err, "message")) else SuccessEnvelope(id, result)
  }

  /** The invocation has a final outcome (a thenable that never settles has none). */
  predicate Settles(inv: Invocation) {
    inv != Deferred(NeverSettles)
  }

  /** The invocations that the harness as written answers: it settles, a
      synchronous throw carries a truthy value, and a plain return value is
      neither null nor undefined (for those `result.res.then` throws). */
  predicate AnsweredAsWritten(inv: Invocation) {
    match inv
    case Threw(e) => Truthy(e)
    case Returned(v) => v != Undefined && v != Null
    case Deferred(s) => s != NeverSettles
  }

  /** `doMsgIn` as written: the envelope eventually posted for one request, if any. */
  function DoMsgIn(id: Value, inv: Invocation): (r: Option<Value>)
    ensures r.Some? <==> AnsweredAsWritten(inv)
    ensures r.Some? ==> r.value.Arr? && |r.value.items| >= 2 && r.value.items[0] == id
    ensures inv.Threw? && Truthy(inv.error) ==> r == Some(ErrorEnvelope(id, Prop(inv.error, "message")))
    ensures inv.Returned? && r.Some? ==> r == Some(SuccessEnvelope(id, inv.value))
    ensures inv.Deferred? && inv.settles.Fulfils? ==> r == Some(SuccessEnvelope(id, inv.settles.value))
    ensures inv.Deferred? && inv.settles.Rejects? && Truthy(inv.settles.reason) ==>
      r == Some(ErrorEnvelope(id, Prop(inv.settles.reason, "message")))
    ensures inv.Deferred? && inv.settles.Rejects? && !Truthy(inv.settles.reason) ==>
      r == Some(SuccessEnvelope(id, Undefined))
  {
    match inv
    case Threw(e) =>
      // a falsy throw leaves `result.err` falsy and `result.res` undefined
      if Truthy(e) then Some(PostMsg(id, e, Undefined)) else None
    case Returned(v) =>
      // `result.res.then` throws a TypeError on undefined and null
      if v == Undefined || v == Null then None else Some(PostMsg(id, Null, v))
    case Deferred(s) =>
      match s
      case Fulfils(v) => Some(PostMsg(id, Null, v))
      case Rejects(e) => Some(PostMsg(id, e, Undefined))
      case NeverSettles => None
  }

  /** `doMsgIn` as evidently intended: decide between the throw branch and
      the return branches by whether the operation threw, so that no read of
      `.then` on undefined or null can abort the reply. `postMsg` still picks
      the envelope by the truthiness of the error, so a falsy throw is
      answered with a success envelope `[id, null, undefined]`. */
  function DoMsgInCorrected(id: Value, inv: Invocation): (r: Option<Value>)
    ensures r.Some? <==> Settles(inv)
    ensures r.Some? ==> r.value.Arr? && |r.value.items| >= 2 && r.value.items[0] == id
  {
    match inv
    case Threw(e) => Some(PostMsg(id, e, Undefined))
    case Returned(v) => Some(PostMsg(id, Null, v))
    case Deferred(s) =>
      match s
      case Fulfils(v) => Some(PostMsg(id, Null, v))
      case Rejects(e) => Some(PostMsg(id, e, Undefined))
      case NeverSettles => None
  }

  /** The inner `postMessage` of `postMsg`: the transport is picked per reply;
      a service worker without a transferred port throws and posts nothing. */
  function Transmit(host: Host, text: string): (r: Option<Reply>)
    ensures r.Some? <==> host.selfCanPost || host.hasPort
    ensures r.Some? ==> r.value.text == text
    ensures r.Some? ==> (r.value.route == ToSelf <==> host.selfCanPost)
  {
    if host.selfCanPost then Some(Reply(text, ToSelf))
    else if host.hasPort then Some(Reply(text, ToPort))
    else None
  }

  /** `onMsgIn`: what the worker posts in answer to one inbound text. */
  function OnMsgIn(c: Codec, op: Operation, host: Host, raw: string): (r: Option<Reply>)
    ensures r.Some? ==> c.decode(raw).Some? && c.decode(raw).value.Arr?
  {
    match AcceptArray(ParseJSON(c, raw))
    case None => None
    case Some(items) =>
      match DoMsgIn(Slot(items, 0), op(Slot(items, 1)))
      case None => None
      case Some(env) =>
        match c.encode(env)
        case Err(_) => None
        case Ok(text) => Transmit(host, text)
  }

  /** The failure message an invocation reports, when it fails. */
  function FailureMessage(inv: Invocation): (message: Value) {
    match inv
    case Threw(e) => Prop(e, "message")
    case Deferred(Rejects(e)) => Prop(e, "message")
    case _ => Null
  }

  /** The value an invocation produces, when it succeeds. */
  function SuccessValue(inv: Invocation): (value: Value) {
    match inv
    case Returned(v) => v
    case Deferred(Fulfils(v)) => v
    case _ => Null
  }

  /** Everything the reply for this invocation carries has a text form. */
  predicate Transmissible(inv: Invocation) {
    WireSafe(FailureMessage(inv)) && WireSafe(SuccessValue(inv))
  }

  /** Exactly one reply: for an array request whose invocation the harness
      answers and whose reply is transmissible, the worker posts one reply
      whose text decodes to the envelope `doMsgIn` built, led by the
      request's id. Anything that does not decode to an array gets none. */
  lemma OneReplyPerAcceptedRequest(c: Codec, op: Operation, host: Host, raw: string)
    requires Faithful(c)
    requires host.selfCanPost || host.hasPort
    ensures (c.decode(raw).None? || !c.decode(raw).value.Arr?) ==> OnMsgIn(c, op, host, raw).None?
    ensures c.decode(raw).Some? && c.decode(raw).value.Arr? ==>
      var items := c.decode(raw).value.items;
      var inv := op(Slot(items, 1));
      WireSafe(Slot(items, 0)) && AnsweredAsWritten(inv) && Transmissible(inv) ==>
        && OnMsgIn(c, op, host, raw).Some?
        && c.decode(OnMsgIn(c, op, host, raw).value.text) == DoMsgIn(Slot(items, 0), inv)
  {
    if c.decode(raw).Some? && c.decode(raw).value.Arr? {
      var items := c.decode(raw).value.items;
      var inv := op(Slot(items, 1));
      if WireSafe(Slot(items, 0)) && AnsweredAsWritten(inv) && Transmissible(inv) {
        var env := DoMsgIn(Slot(items, 0), inv).value;
        EnvelopeWireSafe(Slot(items, 0), inv);
        assert c.encode(env).Ok? && c.decode(c.encode(env).value) == Some(env);
      }
    }
  }

  /** The envelope built for a transmissible answered invocation has a text form. */
  lemma EnvelopeWireSafe(id: Value, inv: Invocation)
    requires WireSafe(id) && AnsweredAsWritten(inv) && Transmissible(inv)
    ensures DoMsgIn(id, inv).Some? && WireSafe(DoMsgIn(id, inv).value)
  {
    var env := DoMsgIn(id, inv).value;
    match inv
    case Threw(e) =>
      assert env == ErrorEnvelope(id, Prop(e, "message"));
      var o := Obj(map["message" := Prop(e, "message")]);
      assert WireSafe(o);
      assert env.items == [id, o];
    case Returned(v) =>
      assert env.items == [id, Null, v];
    case Deferred(s) =>
      match s
      case Fulfils(v) =>
        assert env.items == [id, Null, v];
      case Rejects(e) =>
        var o := Obj(map["message" := Prop(e, "message")]);
        assert WireSafe(o);
        assert env.items == [id, o];
  }

  /** The harness as written answers nothing when the operation returns
      undefined or null or throws a falsy value; the corrected dispatcher
      answers each of them. */
  lemma NoReplyForUndefinedReturn(id: Value)
    ensures DoMsgIn(id, Returned(Undefined)).None?
    ensures DoMsgIn(id, Returned(Null)).None?
    ensures DoMsgIn(id, Threw(Null)).None?
    ensures DoMsgInCorrected(id, Returned(Undefined)) == Some(SuccessEnvelope(id, Undefined))
    ensures DoMsgInCorrected(id, Returned(Null)) == Some(SuccessEnvelope(id, Null))
  {
  }

  /** Wherever the harness as written answers, the corrected one sends the
      very same envelope: the correction only adds answers. */
  lemma CorrectedExtendsAsWritten(id: Value, inv: Invocation)
    ensures DoMsgIn(id, inv).Some? ==> DoMsgInCorrected(id, inv) == DoMsgIn(id, inv)
  {
  }
}
