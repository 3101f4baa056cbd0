/**
 * The two halves together: a request sent by the correlator, answered by the
 * worker harness and delivered back settles the caller's promise as awaiting
 * the operation locally would.
 */
module Protocol {
  import opened Wrappers
  import opened Json
  import opened WorkerHarness
  import opened Correlator

  /** What awaiting the operation locally would give, with a failure turned
      into an error carrying its message; None when it never settles. */
  function LocalOutcome(inv: Invocation): (r: Option<Outcome>)
    ensures r.None? <==> !Settles(inv)
  {
    match inv
    case Threw(e) => Some(Rejected(Prop(e, "message")))
    case Returned(v) => Some(Resolved(v))
    case Deferred(s) =>
      match s
      case Fulfils(v) => Some(Resolved(v))
      case Rejects(e) => Some(Rejected(Prop(e, "message")))
      case NeverSettles => None
  }

  /** Every failure the operation reports is a truthy value (an `Error`
      object, say), as the `if (err)` tests on both sides presuppose. */
  predicate FailsTruthily(inv: Invocation) {
    match inv
    case Threw(e) => Truthy(e)
    case Deferred(Rejects(e)) => Truthy(e)
    case _ => true
  }

  /** How the correlator reads an envelope's error and result slots. */
  function ReadEnvelope(env: Value): (o: Outcome)
    requires env.Arr?
  {
    Complete(Slot(env.items, 1), Slot(env.items, 2))
  }

  /** The envelope the worker builds reads, on the caller's side, as the
      local outcome: for the corrected harness on every settling invocation,
      and for the harness as written wherever it answers. */
  lemma EnvelopeReadsAsLocalOutcome(id: Value, inv: Invocation)
    requires FailsTruthily(inv)
    ensures DoMsgInCorrected(id, inv).Some? ==> ReadEnvelope(DoMsgInCorrected(id, inv).value) == LocalOutcome(inv).value
    ensures DoMsgIn(id, inv).Some? ==> ReadEnvelope(DoMsgIn(id, inv).value) == LocalOutcome(inv).value
  {
    CorrectedExtendsAsWritten(id, inv);
    match inv
    case Threw(e) =>
      assert Slot(DoMsgInCorrected(id, inv).value.items, 2) == Undefined;
    case Returned(v) =>
    case Deferred(s) =>
      match s
      case Fulfils(v) =>
      case Rejects(e) =>
        assert Slot(DoMsgInCorrected(id, inv).value.items, 2) == Undefined;
      case NeverSettles =>
  }

  /** A thenable that rejects with a falsy reason (`Promise.reject()`, say)
      is answered with a success envelope `[id, null, undefined]`, which the
      caller reads as a resolution with `undefined`, whereas awaiting the
      operation locally would reject. */
  lemma FalsyRejectionResolves(id: Value, e: Value)
    requires !Truthy(e)
    ensures DoMsgIn(id, Deferred(Rejects(e))) == Some(SuccessEnvelope(id, Undefined))
    ensures ReadEnvelope(DoMsgIn(id, Deferred(Rejects(e))).value) == Resolved(Undefined)
    ensures LocalOutcome(Deferred(Rejects(e))) == Some(Rejected(Prop(e, "message")))
  {
  }

  /** The worker receives exactly what was sent: the request text of a send
      decodes, on the worker's side, to the new id and the payload itself. */
  lemma WorkerSeesPayload(s: State, c: Codec, msg: Value, controller: bool)
    requires Faithful(c) && WireSafe(msg)
    ensures var request := c.encode(Arr([Num(s.messageIds), msg]));
      && request.Ok?
      && Post(s, c, msg, controller, None).sent == s.sent + [Sent(request.value, Via(controller))]
      && AcceptArray(ParseJSON(c, request.value)) == Some([Num(s.messageIds), msg])
  {
    var req := Arr([Num(s.messageIds), msg]);
    assert WireSafe(req) by {
      assert req.items[0] == Num(s.messageIds) && req.items[1] == msg;
    }
  }

  /** A reply settles its own request, whenever it arrives: in any state
      where `id` is pending and unsettled (after any other sends and
      deliveries, in any order), delivering the worker's reply to the request
      `[id, msg]` removes exactly `id` from the table and settles it as the
      local outcome, leaving every other request as it was. */
  lemma ReplySettlesPending(s: State, c: Codec, op: Operation, host: Host, id: nat, msg: Value)
    requires id in s.pending && id !in s.outcomes
    requires Faithful(c) && WireSafe(msg)
    requires host.selfCanPost || host.hasPort
    requires AnsweredAsWritten(op(msg)) && Transmissible(op(msg)) && FailsTruthily(op(msg))
    ensures var request := c.encode(Arr([Num(id), msg]));
      && request.Ok?
      && OnMsgIn(c, op, host, request.value).Some?
      && Deliver(s, c, OnMsgIn(c, op, host, request.value).value.text)
         == s.(pending := s.pending - {id},
               outcomes := s.outcomes[id := LocalOutcome(op(msg)).value],
               terminated := s.terminated || s.singleFire)
  {
    var items := [Num(id), msg];
    assert WireSafe(Arr(items)) by {
      assert items[0] == Num(id) && items[1] == msg;
    }
    var request := c.encode(Arr(items)).value;
    assert c.decode(request) == Some(Arr(items));
    assert Slot(items, 0) == Num(id) && Slot(items, 1) == msg;
    OneReplyPerAcceptedRequest(c, op, host, request);
    var env := DoMsgIn(Num(id), op(msg)).value;
    var reply := OnMsgIn(c, op, host, request).value;
    assert c.decode(reply.text) == Some(env);
    EnvelopeReadsAsLocalOutcome(Num(id), op(msg));
    assert Answers(s, c, reply.text) == Some(id);
  }

  /** A full round trip: a send, the worker's reply to it and the delivery of
      that reply settle the new request as the local outcome, leave every
      other request as it was, and terminate the worker exactly when the
      handle is single-fire. */
  lemma RoundTrip(s: State, c: Codec, op: Operation, host: Host, msg: Value, controller: bool)
    requires Inv(s) && Faithful(c) && WireSafe(msg)
    requires host.selfCanPost || host.hasPort
    requires AnsweredAsWritten(op(msg)) && Transmissible(op(msg)) && FailsTruthily(op(msg))
    ensures var id := s.messageIds;
      var request := c.encode(Arr([Num(id), msg]));
      var s1 := Post(s, c, msg, controller, None);
      && request.Ok?
      && OnMsgIn(c, op, host, request.value).Some?
      && var s2 := Deliver(s1, c, OnMsgIn(c, op, host, request.value).value.text);
         && s2.pending == s.pending
         && s2.outcomes == s.outcomes[id := LocalOutcome(op(msg)).value]
         && s2.terminated == (s.terminated || s.singleFire)
         && s2.messageIds == id + 1
  {
    var id := s.messageIds;
    WorkerSeesPayload(s, c, msg, controller);
    var s1 := Post(s, c, msg, controller, None);
    assert id !in s.outcomes && id !in s.pending;
    ReplySettlesPending(s1, c, op, host, id, msg);
  }

  /** `send(21)` to a worker that doubles its argument resolves to 42. */
  lemma DoublingScenario(c: Codec, op: Operation, host: Host)
    requires Faithful(c) && (host.selfCanPost || host.hasPort)
    requires op(Num(21)) == Returned(Num(42))
    ensures var request := c.encode(Arr([Num(0), Num(21)]));
      var s1 := Post(Init(false), c, Num(21), false, None);
      && request.Ok?
      && OnMsgIn(c, op, host, request.value).Some?
      && Deliver(s1, c, OnMsgIn(c, op, host, request.value).value.text).outcomes == map[0 := Resolved(Num(42))]
  {
    RoundTrip(Init(false), c, op, host, Num(21), false);
  }

  /** `send(1)` to a worker that throws `Error("bad")` rejects with "bad". */
  lemma ThrowingScenario(c: Codec, op: Operation, host: Host)
    requires Faithful(c) && (host.selfCanPost || host.hasPort)
    requires op(Num(1)) == Threw(Obj(map["message" := Str("bad")]))
    ensures var request := c.encode(Arr([Num(0), Num(1)]));
      var s1 := Post(Init(false), c, Num(1), false, None);
      && request.Ok?
      && OnMsgIn(c, op, host, request.value).Some?
      && Deliver(s1, c, OnMsgIn(c, op, host, request.value).value.text).outcomes == map[0 := Rejected(Str("bad"))]
  {
    RoundTrip(Init(false), c, op, host, Num(1), false);
  }

  /** A single-fire handle whose operation fulfils with its argument: the
      first `send(5)` resolves to 5 and the worker is then terminated. */
  lemma SingleFireScenario(c: Codec, op: Operation, host: Host)
    requires Faithful(c) && (host.selfCanPost || host.hasPort)
    requires op(Num(5)) == Deferred(Fulfils(Num(5)))
    ensures var request := c.encode(Arr([Num(0), Num(5)]));
      var s1 := Post(Init(true), c, Num(5), false, None);
      && request.Ok?
      && OnMsgIn(c, op, host, request.value).Some?
      && var s2 := Deliver(s1, c, OnMsgIn(c, op, host, request.value).value.text);
         s2.outcomes == map[0 := Resolved(Num(5))] && s2.terminated && s2.pending == {}
  {
    RoundTrip(Init(true), c, op, host, Num(5), false);
  }
}
