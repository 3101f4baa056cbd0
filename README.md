# DynamicPromisedWorker, modelled in Dafny

DynamicPromisedWorker turns a one-way, text-based message channel to a web
worker into request/response calls. The caller-side handle numbers each
request, remembers a continuation per pending id, and settles the matching
promise when a response envelope comes back. In single-fire mode it
terminates the worker after a matched response. The worker-side harness
decodes each request and runs the user operation on its payload. It turns
a throw, a plain return value or a thenable into at most one envelope:
`[id, {message}]` for a failure whose error value is truthy,
`[id, null, result]` otherwise.

The model has five modules:

- `Wrappers`: `Option` and `Result`.
- `Json`: the values that cross the channel (`Value`, which includes
  `undefined`), JavaScript truthiness, property lookup, array
  destructuring, and `parseJSON` with its array guard. JSON itself is an
  abstract `Codec`: a possibly failing encoder and a possibly failing
  decoder. `Faithful(c)` states what a real JSON codec gives: every value
  without `undefined` encodes, and decoding the text gives it back.
- `WorkerHarness`: the worker-side dispatcher as pure functions (`PostMsg`,
  `DoMsgIn`, `Transmit`, `OnMsgIn`). The user operation is a function from
  the payload to an `Invocation`: `Threw(e)`, `Returned(v)` or
  `Deferred(settlement)`. `safeExec`'s try/catch is what produces `Threw`.
- `Correlator`: the caller-side handle. `State` with `Post` and `Deliver`
  is its specification. Trace lemmas over runs of sends and deliveries
  prove id allocation, settle-once and ordering properties. The class
  `DynamicPromisedWorker` keeps the source's fields (`messageIds`,
  `handlers`, `singleFire`, termination, the sent texts, the outcome of
  each promise) and updates them in place. Each of its methods is proved
  equal to the matching specification function.
- `Protocol`: both halves together. A send, the worker's reply and its
  delivery settle the request as awaiting the operation locally would,
  provided every failure the operation reports is a truthy value
  (`FailsTruthily`).

In four places the code does something other than what one would
expect of such a protocol. The model follows the code:

- A request whose encoding or transmission throws is rejected, but its
  entry stays in the pending table (`Correlator.Post`). One would expect
  the entry to be removed, so that nothing is left dangling.
- Any decoded array is accepted as a response, whatever its length. Missing
  slots read as `undefined` (`Correlator.ReadResponse`). One would expect
  only `[id, error, result]` triples to be accepted.
- The transport is chosen again on every send, from whether the worker
  currently has a `controller` (`Correlator.Via`). One would expect it to
  be chosen once, when the handle is built.
- Sending after single-fire termination does not fail fast. The new
  request is registered and left unsettled
  (`Correlator.SendAfterTerminationStaysPending`). Only a response could
  settle it, and a terminated worker sends none. That last part is the
  host's behaviour and is not modelled. One would expect such a send to
  be rejected at once.

## Model

| member | source | states |
|---|---|---|
| `Json.Truthy` | src/DynamicPromisedWorker.js:137 | the `if (err)` / `!payload` tests: undefined and null are falsy, arrays and objects truthy, a number iff non-zero, a string iff non-empty |
| `Json.Slot` | src/DynamicPromisedWorker.js:108 | array destructuring yields the element at a position inside the array and `undefined` past its end |
| `Json.Prop` | src/DynamicPromisedWorker.js:45 | `err.message` is the object's `message` field when it has one, `undefined` otherwise |
| `Json.ParseJSON` | src/DynamicPromisedWorker.js:123-129 | `parseJSON` yields the decoded value, or `false` when decoding fails |
| `Json.AcceptArray` | src/DynamicPromisedWorker.js:83-85 | the `!payload \|\| !Array.isArray(payload)` guard accepts exactly the arrays and hands back their elements |
| `Json.AcceptedIffDecodesToArray` | src/DynamicPromisedWorker.js:103-106 | a text is accepted iff it decodes to an array; a decoding failure and a non-array value are both ignored |
| `WorkerHarness.PostMsg` | src/DynamicPromisedWorker.js:29-52 | the envelope is led by the request id; it has two slots, the second carrying `err.message`, iff `err` is truthy, and otherwise is `[id, null, result]` |
| `WorkerHarness.DoMsgIn` | src/DynamicPromisedWorker.js:62-79 | as written, a reply envelope is produced iff the invocation settles, a throw carries a truthy value and a plain return is neither null nor undefined; a truthy throw or rejection gets exactly `[id, {message: e.message}]`, a plain return or fulfilment exactly `[id, null, value]`, a falsy rejection `[id, null, undefined]` |
| `WorkerHarness.DoMsgInCorrected` | src/DynamicPromisedWorker.js:62-79 | corrected harness: exactly one envelope, led by the request id, for every invocation that settles |
| `WorkerHarness.Transmit` | src/DynamicPromisedWorker.js:30-38 | the reply goes to `self` when `self.postMessage` is a function, else to the first transferred port; with neither, nothing is posted |
| `WorkerHarness.OnMsgIn` | src/DynamicPromisedWorker.js:81-89 | the worker replies only to texts that decode to an array |
| `WorkerHarness.OneReplyPerAcceptedRequest` | src/DynamicPromisedWorker.js:81-89 | non-array input gets no reply; an accepted request that the harness answers gets one reply, whose text decodes to the envelope built for it |
| `WorkerHarness.EnvelopeWireSafe` | src/DynamicPromisedWorker.js:39-51 | an answered envelope whose message or result contains no `undefined` has a text form |
| `WorkerHarness.NoReplyForUndefinedReturn` | src/DynamicPromisedWorker.js:65-68 | as written, returning undefined or null, or throwing null, yields no reply; the corrected harness replies `[id, null, undefined]` or `[id, null, null]` |
| `WorkerHarness.CorrectedExtendsAsWritten` | src/DynamicPromisedWorker.js:62-79 | wherever the harness as written replies, the corrected one sends the same envelope |
| `Correlator.Init` | src/DynamicPromisedWorker.js:7-10 | a new handle has counter 0, an empty table, no outcome, nothing sent, and is not terminated |
| `Correlator.Complete` | src/DynamicPromisedWorker.js:136-141 | the continuation rejects with `err.message` iff the error slot is truthy, and otherwise resolves with the result slot |
| `Correlator.Settle` | src/DynamicPromisedWorker.js:135-141 | a promise settles once: an already-settled request keeps its outcome; no other request's outcome changes |
| `Correlator.Post` | src/DynamicPromisedWorker.js:131-158 | the current counter is the new id; the counter grows by one; exactly that id is added to the table before encoding; an encode or transmit failure rejects it with the thrown message and keeps the entry; otherwise the encoded `[id, msg]` is sent on the transport chosen now |
| `Correlator.Via` | src/DynamicPromisedWorker.js:146 | a send goes through the controller iff the worker currently exposes one, and directly otherwise |
| `Correlator.ReadResponse` | src/DynamicPromisedWorker.js:102-108 | a response is accepted iff it decodes to an array of any length; its slots are `[messageId, error, result]`, missing ones `undefined` |
| `Correlator.PendingId` | src/DynamicPromisedWorker.js:110-113 | a continuation is found iff the id slot is a number that is a registered id |
| `Correlator.Answers` | src/DynamicPromisedWorker.js:108-113 | an inbound text answers a request iff it is an accepted response whose id slot is the number of a pending id, and then it answers exactly that id |
| `Correlator.Deliver` | src/DynamicPromisedWorker.js:102-121 | an input that does not decode to an array, or whose id is not pending, changes nothing; otherwise exactly that entry is removed, that request is settled from the error and result slots, and the worker is terminated iff single-fire; no send, no counter change |
| `Correlator.StepKeepsInv` | src/DynamicPromisedWorker.js:132-136 | sending and delivering keep every registered or settled id below the counter |
| `Correlator.RunKeepsInv` | src/DynamicPromisedWorker.js:132-136 | the same holds after any run of sends and deliveries |
| `Correlator.IdsConsecutive` | src/DynamicPromisedWorker.js:132 | the sends of a run get consecutive ids from the counter, failed ones included, and the counter ends past the last |
| `Correlator.IdsStartAtZeroAndIncrease` | src/DynamicPromisedWorker.js:7 | from a new handle the k-th send gets id k, so ids strictly increase and are never reused |
| `Correlator.SettledIsFinal` | src/DynamicPromisedWorker.js:135-141 | once a request is settled, no later run changes its outcome |
| `Correlator.CompletedStaysCompleted` | src/DynamicPromisedWorker.js:110-116 | an issued id that left the table never becomes pending again |
| `Correlator.RedeliveryIsNoOp` | src/DynamicPromisedWorker.js:110-116 | delivering the same response twice has the effect of delivering it once |
| `Correlator.DeliveryIsLocal` | src/DynamicPromisedWorker.js:110-116 | a delivery leaves every request other than the one it answers pending or settled exactly as before |
| `Correlator.DeliveriesCommute` | src/DynamicPromisedWorker.js:102-121 | two responses for different ids give the same state in either arrival order |
| `Correlator.SendAfterTerminationStaysPending` | src/DynamicPromisedWorker.js:131-153 | right after a send to a terminated worker, the new request is registered and unsettled; the handle stays terminated |
| `Correlator.DynamicPromisedWorker.constructor` | src/DynamicPromisedWorker.js:7-10 | the fields start as the initial state |
| `Correlator.DynamicPromisedWorker.Create` | src/DynamicPromisedWorker.js:2-8 | construction fails with the fixed error message, creating no handle, iff the operation is not a function; otherwise single-fire is `!!singleFire` |
| `Correlator.DynamicPromisedWorker.PostMessage` | src/DynamicPromisedWorker.js:131-158 | returns the old counter as the id, registers exactly that id, and updates the fields as `Post` specifies |
| `Correlator.DynamicPromisedWorker.OnMessage` | src/DynamicPromisedWorker.js:102-121 | updates the fields as `Deliver` specifies |
| `Protocol.LocalOutcome` | src/DynamicPromisedWorker.js:62-79 | the reference outcome of awaiting the operation locally; none exactly when it never settles |
| `Protocol.EnvelopeReadsAsLocalOutcome` | src/DynamicPromisedWorker.js:136-141 | when failures are truthy, the caller reads the envelope the worker built as the local outcome, for both the as-written and the corrected harness |
| `Protocol.FalsyRejectionResolves` | src/DynamicPromisedWorker.js:74-76 | a thenable rejecting with a falsy reason is answered `[id, null, undefined]`, which the caller reads as a resolution with `undefined` although a local await would reject |
| `Protocol.WorkerSeesPayload` | src/DynamicPromisedWorker.js:132-153 | a send's text encodes, is logged, and decodes on the worker side to exactly `[id, payload]` |
| `Protocol.ReplySettlesPending` | src/DynamicPromisedWorker.js:102-121 | in any state where an id is pending and unsettled, whatever was sent or delivered before, delivering the worker's reply to its request removes exactly that id and settles it as the local outcome; every other request is untouched |
| `Protocol.RoundTrip` | src/DynamicPromisedWorker.js:131-158 | send, worker reply and delivery settle the new request as the local outcome; other requests are untouched; the worker is terminated iff single-fire |
| `Protocol.DoublingScenario` | src/DynamicPromisedWorker.js:131-141 | `send(21)` to a doubling operation resolves to 42 |
| `Protocol.ThrowingScenario` | src/DynamicPromisedWorker.js:136-139 | `send(1)` to an operation throwing `Error("bad")` rejects with "bad" |
| `Protocol.SingleFireScenario` | src/DynamicPromisedWorker.js:118-120 | on a single-fire handle, `send(5)` to an operation fulfilling with its argument resolves to 5 and terminates the worker |

## Left out

- Worker provisioning is not modelled (`makeWorker`, src/DynamicPromisedWorker.js:94-99). This covers the source-text stitching, `Blob`, `URL.createObjectURL` and `new Worker`. Line 94 reads `this._promisedWorker`, but `_promisedWorker` is a local function, not a property. As written, construction with a valid function would therefore throw there. The model assumes provisioning succeeds.
- Event-listener registration (lines 13-15 and 91) is not modelled: the model calls `OnMessage` and `OnMsgIn` directly.
- The reply path in controller mode is not modelled (lines 147-150). Inside the plain function given to `port1.onmessage`, `this` is the port, not the handle. The model records only which transport a send used. It delivers every reply to the handle directly.
- `console.error` diagnostics (line 40) are not modelled.
- `Correlator.IdsStartAtZeroAndIncrease`: the ids are unique only below 2^53. The source's counter `messageIds` is a JavaScript number. Past 2^53, `this.messageIds++` (line 132) no longer changes it. Every later send would then reuse the id 2^53, and `_handlers.set` would overwrite the earlier continuation. The model's counter is an unbounded `nat`, so this saturation is not modelled.
- `Protocol.RoundTrip`, `Protocol.ReplySettlesPending`, `Protocol.EnvelopeReadsAsLocalOutcome`: these require `FailsTruthily`, i.e. that a throw or a rejection carries a truthy value. As written, a falsy rejection reason (line 75 passes it to `postMsg`, whose `if (err)` at line 39 then fails) produces a success envelope, so the caller resolves instead of rejecting. `Protocol.FalsyRejectionResolves` exhibits this. A falsy throw gets no reply at all (see Findings).
- `Protocol.RoundTrip`, `Protocol.ReplySettlesPending`, `WorkerHarness.OneReplyPerAcceptedRequest`: these also require `Transmissible`, i.e. no `undefined` inside the reply. JSON writes an `undefined` array slot as `null` and drops an object field holding `undefined`. So `async x => {}` is answered with the text `[id,null,null]`; such replies are outside the codec assumption `Faithful` and outside these lemmas.
- JSON itself is abstract. Numbers are integers, so floating point, `NaN` and `-0` are not modelled, and neither is how the `Map` compares non-integer keys.
- `Correlator.Complete`: records `err.message` itself as the rejection message. `new Error(...)` would convert it to a string, and that conversion is not modelled.
- Promise scheduling and asynchrony are not modelled: `outcomes` records how each promise settled.
- `WorkerHarness.Settlement`: models a thenable that settles once or never. A hand-written thenable that calls its callbacks several times is not modelled.
- A JSON encoding failure of the reply on the worker side (inside `postMsg`) makes `OnMsgIn` return no reply. The uncaught exception it raises in the worker is not modelled.
- Termination marks the handle as terminated. What the host does with later sends (it silently drops them) is outside the model. The sent log records every text handed to the transport.

## Findings

| source | as written | input that shows it | evidently intended | confidence | as-written member | corrected member |
|---|---|---|---|---|---|---|
| src/DynamicPromisedWorker.js:65-68 | `result.res.then` is read whenever `result.err` is falsy. When the operation returned `undefined` or `null`, or threw a falsy value, that read throws a TypeError. No reply is posted and the caller's promise never settles. | the operation `x => {}` (returns `undefined`), any request | one reply per request that settles: `[id, null, undefined]` for that input | high; not executed | `WorkerHarness.NoReplyForUndefinedReturn` | `WorkerHarness.DoMsgInCorrected` |
