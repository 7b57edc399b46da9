/** Decoded JSON, only as far as the TypeScript code looks into it. That code casts
    the result of JSON.parse to its declared shape without checking it, so a
    key the reply lacks reads as `undefined` and flows on as such. */
module Json {
  import opened Wrappers

  /** A field read from a decoded reply: absent, or a JSON value, identified
      by the text JSON.stringify produces for it. */
  datatype JsValue = Undefined | Value(serialized: string)

  /** JSON.stringify of a field: the value's JSON text, or `undefined` (None)
      for an absent field. */
  function Stringify(v: JsValue): Option<string>
  {
    match v
    case Undefined => None
    case Value(text) => Some(text)
  }

  /** The stored text of a field determines the field: an absent field is
      stored as undefined and nothing else is. */
  lemma StringifyInjective(v1: JsValue, v2: JsValue)
    ensures Stringify(v1) == Stringify(v2) <==> v1 == v2
    ensures Stringify(v1).None? <==> v1.Undefined?
  {
  }
}
