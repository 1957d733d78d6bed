/**
  JSON values as the service and its client see them once a request or
  response body has been parsed. JavaScript's `undefined` (a property that is
  not there) is `None` of `Option`; `null` is the JSON value `JNull`.
 */
module Json {

  datatype Option<+T> = None | Some(value: T)

  /** A parsed JSON document. Numbers are finite reals; object keys are unordered. */
  datatype Json =
    | JNull
    | JBool(b: bool)
    | JNum(n: real)
    | JStr(s: string)
    | JArr(items: seq<Json>)
    | JObj(fields: map<string, Json>)

  /**
    The property access `v.key` on a value that is not `null`. Only objects
    carry the keys this model reads (none of them is a built-in property of
    strings or arrays), so every other value yields `undefined`.
   */
  function Member(v: Json, key: string): (r: Option<Json>)
    ensures r.Some? <==> v.JObj? && key in v.fields
    ensures r.Some? ==> r.value == v.fields[key]
  {
    if v.JObj? && key in v.fields then Some(v.fields[key]) else None
  }

  /** JavaScript truthiness of a JSON value: `null`, `false`, `0` and `""` are falsy. */
  predicate Truthy(v: Json) {
    match v
    case JNull => false
    case JBool(b) => b
    case JNum(n) => n != 0.0
    case JStr(s) => s != ""
    case JArr(_) => true
    case JObj(_) => true
  }

  /** Truthiness of a property read that may be `undefined` (which is falsy). */
  predicate TruthyField(v: Option<Json>) {
    v.Some? && Truthy(v.value)
  }

  /** The one-key object `{ key: v }`, or `{}` when `v` is `undefined`. */
  function Entry(key: string, v: Option<Json>): (m: map<string, Json>)
    ensures m.Keys <= {key}
    ensures key in m <==> v.Some?
    ensures key in m ==> m[key] == v.value
  {
    if v.Some? then map[key := v.value] else map[]
  }
}
