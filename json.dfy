/** JSON-like values as the configuration loader and the LLM adapters see
    them, with JavaScript's truthiness and property access. `undefined` (a
    missing property) is `None` of an `Option<Json>`. */
module Json {
  import opened Wrappers

  datatype Json =
    | JNull
    | JBool(b: bool)
    | JNumber(n: real)
    | JString(s: string)
    | JArray(items: seq<Json>)
    | JObject(fields: map<string, Json>)

  /** JavaScript truthiness: `undefined`, `null`, `false`, `0` and `""` are
      falsy; every array and object is truthy. */
  predicate Truthy(v: Option<Json>) {
    match v
    case None => false
    case Some(JNull) => false
    case Some(JBool(b)) => b
    case Some(JNumber(n)) => n != 0.0
    case Some(JString(s)) => s != ""
    case Some(_) => true
  }

  /** `v[key]`: an object's own property, `undefined` for anything else. */
  function Get(v: Json, key: string): Option<Json> {
    if v.JObject? && key in v.fields then Some(v.fields[key]) else None
  }

  /** `v && typeof v === "object"`: a (truthy) object or array. */
  predicate IsObject(v: Option<Json>) {
    v.Some? && (v.value.JObject? || v.value.JArray?)
  }

  /** `m` with `key` set to the value when there is one, and left out otherwise. */
  function WithOptional(m: map<string, Json>, key: string, v: Option<Json>): map<string, Json> {
    if v.Some? then m[key := v.value] else m
  }
}
