/**
 * The JavaScript values that cross the message channel, the two JavaScript
 * checks the protocol relies on (truthiness and property lookup), and the text
 * codec, kept abstract: the protocol only needs "encode may fail" and
 * "decode may fail".
 */
module Json {
  import opened Wrappers

  /** A JavaScript value as the protocol sees it. `Undefined` is what
      destructuring a short array or reading a missing property yields. A JSON
      encoder does not keep it: on its own it has no text form, inside an
      array it is written as `null`, and an object field holding it is
      dropped. Numbers are integers here. */
  datatype Value =
    | Undefined
    | Null
    | Bool(b: bool)
    | Num(n: int)
    | Str(s: string)
    | Arr(items: seq<Value>)
    | Obj(fields: map<string, Value>)

  /** JavaScript truthiness, as used by `if (err)` and `!message`. */
  predicate Truthy(v: Value)
    ensures v == Undefined || v == Null ==> !Truthy(v)
    ensures v.Arr? || v.Obj? ==> Truthy(v)
    ensures v.Bool? ==> (Truthy(v) <==> v.b)
    ensures v.Num? ==> (Truthy(v) <==> v.n != 0)
    ensures v.Str? ==> (Truthy(v) <==> v.s != "")
  {
    match v
    case Undefined => false
    case Null => false
    case Bool(b) => b
    case Num(n) => n != 0
    case Str(s) => s != ""
    case Arr(_) => true
    case Obj(_) => true
  }

  /** Property read `v.key`: the field of an object that has it, undefined on
      every other value. The code reads it only on truthy values (on null or
      undefined JavaScript would throw instead). */
  function Prop(v: Value, key: string): (r: Value)
    ensures r != Undefined ==> v.Obj? && key in v.fields && r == v.fields[key]
    ensures v.Obj? && key in v.fields ==> r == v.fields[key]
  {
    if v.Obj? && key in v.fields then v.fields[key] else Undefined
  }

  /** Array destructuring `const [a, b, c] = items`: slot i, or undefined past the end. */
  function Slot(items: seq<Value>, i: nat): (r: Value)
    ensures i < |items| ==> r == items[i]
    ensures i >= |items| ==> r == Undefined
  {
    if i < |items| then items[i] else Undefined
  }

  /** A value that a JSON encoder writes out without loss: no `undefined` inside. */
  predicate WireSafe(v: Value) {
    match v
    case Undefined => false
    case Arr(items) => forall i :: 0 <= i < |items| ==> WireSafe(items[i])
    case Obj(fields) => forall k :: k in fields ==> WireSafe(fields[k])
    case _ => true
  }

  /** `JSON.stringify` (which may throw, with a message) and `JSON.parse`
      (which may throw) as opaque collaborators. */
  datatype Codec = Codec(encode: Value -> Result<string, string>, decode: string -> Option<Value>)

  /** What the protocol assumes of a real JSON codec: every wire-safe value
      encodes, and decoding its text gives it back. */
  ghost predicate Faithful(c: Codec) {
    forall v | WireSafe(v) :: c.encode(v).Ok? && c.decode(c.encode(v).value) == Some(v)
  }

  /** `parseJSON`, identical on both sides: the decoded value, or `false` when
      decoding throws. */
  function ParseJSON(c: Codec, text: string): (r: Value)
    ensures c.decode(text).None? ==> r == Bool(false)
    ensures c.decode(text).Some? ==> r == c.decode(text).value
  {
    match c.decode(text)
    case Some(v) => v
    case None => Bool(false)
  }

  /** The guard `if (!payload || !Array.isArray(payload)) return;`: the
      elements of an accepted message, or None when it is ignored. */
  function AcceptArray(payload: Value): (r: Option<seq<Value>>)
    ensures r.Some? <==> payload.Arr?
    ensures r.Some? ==> payload == Arr(r.value)
  {
    if !Truthy(payload) || !payload.Arr? then None else Some(payload.items)
  }

  /** Decoding then guarding: a text is accepted exactly when it decodes to an
      array. A decoding failure and a text that decodes to `false` are both
      ignored, and so is every other non-array value. */
  lemma AcceptedIffDecodesToArray(c: Codec, text: string)
    ensures AcceptArray(ParseJSON(c, text)).Some?
        <==> (c.decode(text).Some? && c.decode(text).value.Arr?)
    ensures AcceptArray(ParseJSON(c, text)).Some?
        ==> c.decode(text) == Some(Arr(AcceptArray(ParseJSON(c, text)).value))
  {
  }
}
