/** JSON values as the JavaScript code sees them after `JSON.parse`, their
    truthiness, property lookup with `?.`, and the runtime functions that
    the model leaves abstract. */
module Json {
  import opened Wrappers

  /** A JSON value (the value grammar of section 3 of RFC 8259). Numbers are
      the mathematical value of the double. */
  datatype Json =
    | JNull
    | JBool(b: bool)
    | JNumber(n: real)
    | JString(s: string)
    | JArray(items: seq<Json>)
    | JObject(fields: map<string, Json>)

  /** JavaScript truthiness: `null`, `false`, `0` and `""` are falsy. */
  predicate Truthy(v: Json) {
    match v
    case JNull => false
    case JBool(b) => b
    case JNumber(n) => n != 0.0
    case JString(s) => s != ""
    case _ => true
  }

  /** `typeof v === 'object'` (true of `null`, arrays and objects). */
  predicate IsObjectType(v: Json) {
    v.JNull? || v.JArray? || v.JObject?
  }

  /** `v?.key` where `None` is `undefined`: only objects have own
      properties that a JSON value can carry. */
  function Get(v: Json, key: string): (r: Option<Json>)
    ensures r.Some? <==> v.JObject? && key in v.fields
    ensures r.Some? ==> r.value == v.fields[key]
  {
    if v.JObject? && key in v.fields then Some(v.fields[key]) else None
  }

  /** `v?.key` read into a value, with `undefined` taken as falsy `null`. */
  function Field(v: Json, key: string): (r: Json)
    ensures Truthy(r) ==> Get(v, key) == Some(r)
  {
    Get(v, key).GetOr(JNull)
  }

  /** The built-ins of the JavaScript runtime that the model does not define:
      `JSON.parse` (`None` when it throws), `JSON.stringify`, `String(v)`
      for a value that is not a string, and the message of the `TypeError`
      raised by `v.slice(...)` on a value without a `slice` method. */
  datatype Runtime = Runtime(
    parse: string -> Option<Json>,
    stringify: Json -> string,
    toText: Json -> string,
    sliceError: Json -> string)
}
