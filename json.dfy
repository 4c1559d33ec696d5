/**
 * Parsed JSON values, as `JSON.parse` returns them, and the JavaScript truthiness
 * and property access the clients apply to them. Numbers are integers here.
 */
module Json {
  import opened Common

  datatype Json =
    | JNull
    | JBool(b: bool)
    | JNumber(n: int)
    | JString(s: string)
    | JArray(elems: seq<Json>)
    | JObject(fields: map<string, Json>)

  /** JavaScript truthiness: `null`, `false`, `0` and `""` are falsy. */
  predicate Truthy(v: Json) {
    match v
    case JNull => false
    case JBool(b) => b
    case JNumber(n) => n != 0
    case JString(s) => s != ""
    case _ => true
  }

  /** `v.key`: `undefined` (None) unless `v` is an object holding `key`. */
  function Get(v: Json, key: string): (r: Option<Json>)
    ensures r.Some? <==> v.JObject? && key in v.fields
  {
    if v.JObject? && key in v.fields then Some(v.fields[key]) else None
  }

  /** `!!v.key`. */
  predicate TruthyField(v: Json, key: string) {
    Get(v, key).Some? && Truthy(Get(v, key).value)
  }

  /** `typeof v === 'object' && v !== null`. */
  predicate IsObject(v: Json) {
    v.JArray? || v.JObject?
  }
}
