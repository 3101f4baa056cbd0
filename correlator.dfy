/**
 * The caller-side correlator (class `DynamicPromisedWorker`): it numbers
 * each request, keeps a table of pending requests, matches each inbound
 * response to its pending entry and settles that request's promise, and in
 * single-fire mode terminates the worker after a matched response.
 *
 * `State` with `Post` and `Deliver` is the specification; the class below
 * implements it with fields that its methods update in place. Promises are
 * represented by `outcomes`, which records how each request's promise
 * settled.
 */
module Correlator {
  import opened Wrappers
  import opened Json
  import WorkerHarness

  /** How a request's promise settled: `resolve(result)`, or
      `reject(new Error(message))`. */
  datatype Outcome = Resolved(value: Value) | Rejected(message: Value)

  /** The transport used by one send: the worker itself, or its controller
      through a fresh message channel. */
  datatype Transport = Direct | ViaController

  /** One text handed to the transport. */
  datatype Sent = Sent(text: string, via: Transport)

  /** The handle's state: the id counter, the ids whose continuation is still
      registered, the single-fire flag, whether the worker was terminated, the
      texts sent, and how each settled promise settled. */
  datatype State = State(
    messageIds: nat,
    singleFire: bool,
    pending: set<nat>,
    terminated: bool,
    sent: seq<Sent>,
    outcomes: map<nat, Outcome>)

  /** The first argument of the constructor. */
  datatype Argument = Callable(op: WorkerHarness.Operation) | NotCallable(v: Value)

  /** A freshly constructed handle. */
  function Init(singleFire: bool): (s: State)
    ensures s.messageIds == 0 && s.pending == {} && s.outcomes == map[]
    ensures !s.terminated && s.sent == [] && s.singleFire == singleFire
  {
    State(0, singleFire, {}, false, [], map[])
  }

  /** Every registered or settled id has been issued. */
  ghost predicate Inv(s: State) {
    && (forall k :: k in s.pending ==> k < s.messageIds)
    && (forall k :: k in s.outcomes ==> k < s.messageIds)
  }

  /** The continuation `postMessage` registers, run with `(err, result)`:
      it rejects with `err.message` when `err` is truthy and resolves with
      `result` otherwise. */
  function Complete(err: Value, result: Value): (o: Outcome)
    ensures o.Rejected? <==> Truthy(err)
    ensures o.Rejected? ==> o.message == Prop(err, "message")
    ensures o.Resolved? ==> o.value == result
  {
    if Truthy(err) then Rejected(Prop(err, "message")) else Resolved(result)
  }

  /** A promise settles once: a later resolve or reject is ignored. */
  function Settle(outcomes: map<nat, Outcome>, id: nat, o: Outcome): (r: map<nat, Outcome>)
    ensures r.Keys == outcomes.Keys + {id}
    ensures id in outcomes ==> r == outcomes
    ensures id !in outcomes ==> r[id] == o
    ensures forall k :: k in outcomes ==> r[k] == outcomes[k]
  {
    if id in outcomes then outcomes else outcomes[id := o]
  }

  /** The transport `postMessage` picks, from whether the worker currently
      exposes a controller. */
  function Via(controller: bool): (t: Transport)
    ensures t == ViaController <==> controller
    ensures t == Direct <==> !controller
  {
    if controller then ViaController else Direct
  }

  /** `postMessage(msg)`: issue the next id, register its continuation, then
      encode `[id, msg]` and hand the text to the transport. An encoding
      failure or a throwing transport rejects the new request with the
      thrown message; its entry stays registered either way. */
  function Post(s: State, c: Codec, msg: Value, controller: bool, transmitError: Option<string>): (r: State)
    ensures r.messageIds == s.messageIds + 1
    ensures r.pending == s.pending + {s.messageIds}
    ensures r.singleFire == s.singleFire && r.terminated == s.terminated
    ensures c.encode(Arr([Num(s.messageIds), msg])).Err? ==>
      && r.sent == s.sent
      && r.outcomes == Settle(s.outcomes, s.messageIds, Rejected(Str(c.encode(Arr([Num(s.messageIds), msg])).error)))
    ensures c.encode(Arr([Num(s.messageIds), msg])).Ok? && transmitError.Some? ==>
      && r.sent == s.sent
      && r.outcomes == Settle(s.outcomes, s.messageIds, Rejected(Str(transmitError.value)))
    ensures c.encode(Arr([Num(s.messageIds), msg])).Ok? && transmitError.None? ==>
      && r.sent == s.sent + [Sent(c.encode(Arr([Num(s.messageIds), msg])).value, Via(controller))]
      && r.outcomes == s.outcomes
  {
    var id := s.messageIds;
    var s1 := s.(messageIds := id + 1, pending := s.pending + {id});
    match c.encode(Arr([Num(id), msg]))
    case Err(m) => s1.(outcomes := Settle(s.outcomes, id, Rejected(Str(m))))
    case Ok(text) =>
      match transmitError
      case Some(m) => s1.(outcomes := Settle(s.outcomes, id, Rejected(Str(m))))
      case None => s1.(sent := s.sent + [Sent(text, Via(controller))])
  }

  /** The slots of an accepted response, `const [messageId, error, result] = message`. */
  datatype Response = Response(id: Value, error: Value, result: Value)

  /** The response an inbound text carries, if the correlator accepts it: any
      text that decodes to an array, whatever its length. */
  function ReadResponse(c: Codec, raw: string): (r: Option<Response>)
    ensures r.Some? <==> c.decode(raw).Some? && c.decode(raw).value.Arr?
    ensures r.Some? ==> var items := c.decode(raw).value.items;
      r.value == Response(Slot(items, 0), Slot(items, 1), Slot(items, 2))
  {
    match AcceptArray(ParseJSON(c, raw))
    case None => None
    case Some(items) => Some(Response(Slot(items, 0), Slot(items, 1), Slot(items, 2)))
  }

  /** `this._handlers.get(messageId)`: the table is keyed by numbers, so only
      a number that is a registered id finds a continuation. */
  function PendingId(pending: set<nat>, id: Value): (r: Option<nat>)
    ensures r.Some? <==> id.Num? && 0 <= id.n && id.n in pending
    ensures r.Some? ==> id == Num(r.value) && r.value in pending
  {
    if id.Num? && 0 <= id.n && id.n in pending then Some(id.n) else None
  }

  /** The pending id an inbound text answers, if any. */
  function Answers(s: State, c: Codec, raw: string): (r: Option<nat>)
    ensures r.Some? ==> r.value in s.pending
    ensures r.Some? <==> ReadResponse(c, raw).Some? && PendingId(s.pending, ReadResponse(c, raw).value.id).Some?
    ensures r.Some? ==> ReadResponse(c, raw).value.id == Num(r.value)
  {
    match ReadResponse(c, raw)
    case None => None
    case Some(resp) => PendingId(s.pending, resp.id)
  }

  /** `onMessage`: a text that answers no pending id changes nothing; one
      that does removes that entry, settles that request from the error and
      result slots, and terminates the worker in single-fire mode. */
  function Deliver(s: State, c: Codec, raw: string): (r: State)
    ensures Answers(s, c, raw).None? ==> r == s
    ensures Answers(s, c, raw).Some? ==>
      var n := Answers(s, c, raw).value;
      var resp := ReadResponse(c, raw).value;
      && r.pending == s.pending - {n}
      && r.outcomes == Settle(s.outcomes, n, Complete(resp.error, resp.result))
      && r.terminated == (s.terminated || s.singleFire)
    ensures r.messageIds == s.messageIds && r.sent == s.sent && r.singleFire == s.singleFire
    ensures r.pending <= s.pending
    ensures !s.singleFire ==> r.terminated == s.terminated
  {
    match Answers(s, c, raw)
    case None => s
    case Some(n) =>
      var resp := ReadResponse(c, raw).value;
      s.(pending := s.pending - {n},
         outcomes := Settle(s.outcomes, n, Complete(resp.error, resp.result)),
         terminated := s.terminated || s.singleFire)
  }

  /** Something that happens to a handle: a `postMessage` call (with the
      transport choice and whether the transport throws) or an inbound text. */
  datatype Event =
    | Send(msg: Value, controller: bool, transmitError: Option<string>)
    | Receive(raw: string)

  function Step(s: State, c: Codec, e: Event): (r: State) {
    match e
    case Send(msg, controller, transmitError) => Post(s, c, msg, controller, transmitError)
    case Receive(raw) => Deliver(s, c, raw)
  }

  function Run(s: State, c: Codec, evs: seq<Event>): (r: State)
    decreases |evs|
  {
    if evs == [] then s else Run(Step(s, c, evs[0]), c, evs[1..])
  }

  /** The id each `Send` of a run is given, in order. */
  function Ids(s: State, c: Codec, evs: seq<Event>): (ids: seq<nat>)
    decreases |evs|
  {
    if evs == [] then []
    else if evs[0].Send? then [s.messageIds] + Ids(Step(s, c, evs[0]), c, evs[1..])
    else Ids(Step(s, c, evs[0]), c, evs[1..])
  }

  /** Both operations keep every registered and settled id below the counter. */
  lemma StepKeepsInv(s: State, c: Codec, e: Event)
    requires Inv(s)
    ensures Inv(Step(s, c, e))
  {
  }

  lemma {:induction false} RunKeepsInv(s: State, c: Codec, evs: seq<Event>)
    requires Inv(s)
    ensures Inv(Run(s, c, evs))
    decreases |evs|
  {
    if evs != [] {
      StepKeepsInv(s, c, evs[0]);
      RunKeepsInv(Step(s, c, evs[0]), c, evs[1..]);
    }
  }

  /** Sends are numbered consecutively from the counter, whatever happens in
      between (failed encodings and transmissions included), and the counter
      ends just past the last id given out. */
  lemma {:induction false} IdsConsecutive(s: State, c: Codec, evs: seq<Event>)
    ensures forall j :: 0 <= j < |Ids(s, c, evs)| ==> Ids(s, c, evs)[j] == s.messageIds + j
    ensures Run(s, c, evs).messageIds == s.messageIds + |Ids(s, c, evs)|
    decreases |evs|
  {
    if evs != [] {
      IdsConsecutive(Step(s, c, evs[0]), c, evs[1..]);
    }
  }

  /** From a fresh handle, the k-th send gets id k: ids start at 0, strictly
      increase and are never reused. */
  lemma IdsStartAtZeroAndIncrease(singleFire: bool, c: Codec, evs: seq<Event>)
    ensures forall j :: 0 <= j < |Ids(Init(singleFire), c, evs)| ==> Ids(Init(singleFire), c, evs)[j] == j
    ensures forall i, j :: 0 <= i < j < |Ids(Init(singleFire), c, evs)| ==>
      Ids(Init(singleFire), c, evs)[i] < Ids(Init(singleFire), c, evs)[j]
  {
    IdsConsecutive(Init(singleFire), c, evs);
  }

  /** A settled request stays settled the same way: each id completes at most once. */
  lemma {:induction false} SettledIsFinal(s: State, c: Codec, evs: seq<Event>, id: nat)
    requires id in s.outcomes
    ensures id in Run(s, c, evs).outcomes && Run(s, c, evs).outcomes[id] == s.outcomes[id]
    decreases |evs|
  {
    if evs != [] {
      SettledIsFinal(Step(s, c, evs[0]), c, evs[1..], id);
    }
  }

  /** An issued id that is no longer pending never becomes pending again:
      completion is absorbing and ids are not reused. */
  lemma {:induction false} CompletedStaysCompleted(s: State, c: Codec, evs: seq<Event>, id: nat)
    requires id < s.messageIds && id !in s.pending
    ensures id !in Run(s, c, evs).pending
    decreases |evs|
  {
    if evs != [] {
      CompletedStaysCompleted(Step(s, c, evs[0]), c, evs[1..], id);
    }
  }

  /** A response delivered twice acts once: the second delivery is a no-op. */
  lemma RedeliveryIsNoOp(s: State, c: Codec, raw: string)
    ensures Deliver(Deliver(s, c, raw), c, raw) == Deliver(s, c, raw)
  {
    if Answers(s, c, raw).Some? {
      assert Answers(Deliver(s, c, raw), c, raw).None?;
    }
  }

  /** Delivering a response touches only the id it answers: every other
      request stays pending or settled exactly as it was. */
  lemma DeliveryIsLocal(s: State, c: Codec, raw: string, k: nat)
    requires Answers(s, c, raw) != Some(k)
    ensures k in Deliver(s, c, raw).pending <==> k in s.pending
    ensures k in Deliver(s, c, raw).outcomes <==> k in s.outcomes
    ensures k in s.outcomes ==> Deliver(s, c, raw).outcomes[k] == s.outcomes[k]
  {
  }

  /** Responses may arrive in any order: two responses for different ids
      leave the handle in the same state whichever comes first. */
  lemma DeliveriesCommute(s: State, c: Codec, raw1: string, raw2: string)
    requires Answers(s, c, raw1).None? || Answers(s, c, raw1) != Answers(s, c, raw2)
    ensures Deliver(Deliver(s, c, raw1), c, raw2) == Deliver(Deliver(s, c, raw2), c, raw1)
  {
    var a, b := Deliver(Deliver(s, c, raw1), c, raw2), Deliver(Deliver(s, c, raw2), c, raw1);
    assert a.pending == b.pending;
    assert a.outcomes == b.outcomes;
  }

  /** The code does not fail fast after termination: a send to a terminated
      worker leaves the new request registered and unsettled. Only a response
      could settle it, and a terminated worker sends none (that is the host's
      behaviour, which is not modelled). */
  lemma SendAfterTerminationStaysPending(s: State, c: Codec, msg: Value, controller: bool)
    requires Inv(s) && s.terminated
    requires c.encode(Arr([Num(s.messageIds), msg])).Ok?
    ensures s.messageIds in Post(s, c, msg, controller, None).pending
    ensures s.messageIds !in Post(s, c, msg, controller, None).outcomes
    ensures Post(s, c, msg, controller, None).terminated
  {
  }

  /** The handle itself. Its fields are updated in place by `PostMessage`
      and `OnMessage`; `Abs` reads them back as a `State`. */
  class DynamicPromisedWorker {
    const codec: Codec
    const singleFire: bool
    var messageIds: nat
    var handlers: set<nat>
    var terminated: bool
    var sent: seq<Sent>
    var outcomes: map<nat, Outcome>

    function Abs(): (s: State)
      reads this
    {
      State(messageIds, singleFire, handlers, terminated, sent, outcomes)
    }

    ghost predicate Valid()
      reads this
    {
      Inv(Abs())
    }

    constructor (codec: Codec, singleFire: bool)
      ensures Valid() && Abs() == Init(singleFire) && this.codec == codec
    {
      this.codec := codec;
      this.singleFire := singleFire;
      messageIds := 0;
      handlers := {};
      terminated := false;
      sent := [];
      outcomes := map[];
    }

    /** `new DynamicPromisedWorker(fn, singleFire)`: fails with an error,
        creating no handle, unless `fn` is a function; otherwise a handle with
        no request issued, whose single-fire flag is `!!singleFire`. */
    static method Create(fn: Argument, singleFire: Value, codec: Codec) returns (r: Result<DynamicPromisedWorker, string>)
      ensures r.Err? <==> fn.NotCallable?
      ensures r.Err? ==> r.error == "DynamicPromisedWorker must be passed a valid function."
      ensures r.Ok? ==> fresh(r.value) && r.value.Valid() && r.value.codec == codec
      ensures r.Ok? ==> r.value.Abs() == Init(Truthy(singleFire))
    {
      if fn.NotCallable? {
        return Err("DynamicPromisedWorker must be passed a valid function.");
      }
      var w := new DynamicPromisedWorker(codec, Truthy(singleFire));
      return Ok(w);
    }

    /** `postMessage(msg)`; the returned id names the request whose promise
        `outcomes` records. */
    method PostMessage(msg: Value, controller: bool, transmitError: Option<string>) returns (id: nat)
      requires Valid()
      modifies this
      ensures Valid()
      ensures id == old(messageIds) && messageIds == id + 1
      ensures handlers == old(handlers) + {id} && id !in old(handlers)
      ensures Abs() == Post(old(Abs()), codec, msg, controller, transmitError)
    {
      id := messageIds;
      messageIds := messageIds + 1;
      handlers := handlers + {id};
      match codec.encode(Arr([Num(id), msg]))
      case Err(m) =>
        outcomes := outcomes[id := Rejected(Str(m))];
      case Ok(text) =>
        match transmitError
        case Some(m) =>
          outcomes := outcomes[id := Rejected(Str(m))];
        case None =>
          sent := sent + [Sent(text, Via(controller))];
    }

    /** `onMessage(e)` for an inbound text. */
    method OnMessage(raw: string)
      requires Valid()
      modifies this
      ensures Valid()
      ensures Abs() == Deliver(old(Abs()), codec, raw)
    {
      var message := ParseJSON(codec, raw);
      if !Truthy(message) || !message.Arr? {
        return;
      }
      var messageId, error, result := Slot(message.items, 0), Slot(message.items, 1), Slot(message.items, 2);
      if !(messageId.Num? && 0 <= messageId.n && messageId.n in handlers) {
        return;
      }
      var n: nat := messageId.n;
      handlers := handlers - {n};
      if n !in outcomes {
        outcomes := outcomes[n := Complete(error, result)];
      }
      if singleFire {
        terminated := true;
      }
    }
  }
}
