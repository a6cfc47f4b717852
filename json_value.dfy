/**
 * A value produced by `JSON.parse` (as `response.json()` returns it) and
 * JavaScript's truthiness test on it.
 */
module JsonValue {
  import opened Wrappers

  datatype Value =
    | JNull
    | JBool(b: bool)
    | JNumber(x: real)
    | JString(s: string)
    | JArray(items: seq<Value>)
    | JObject(fields: map<string, Value>)

  /** `if (v)` in JavaScript: `null`, `false`, `0` and `""` are falsy. */
  predicate Truthy(v: Value) {
    match v
    case JNull => false
    case JBool(b) => b
    case JNumber(x) => x != 0.0
    case JString(s) => s != ""
    case JArray(_) => true
    case JObject(_) => true
  }

  /** Truthiness of a value that may be `null` or `undefined` (None). */
  predicate TruthyOpt(o: Option<Value>) {
    o.Some? && Truthy(o.value)
  }

  /** `v?.key` on parsed JSON: only an object that has the key yields a
      value; `null`, a missing key and every non-object give `undefined`. */
  function Member(v: Option<Value>, key: string): (r: Option<Value>)
    ensures r.Some? <==> v.Some? && v.value.JObject? && key in v.value.fields
    ensures r.Some? ==> r.value == v.value.fields[key]
  {
    match v
    case Some(JObject(fields)) => if key in fields then Some(fields[key]) else None
    case _ => None
  }
}
