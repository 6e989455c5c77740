/** JSON values as the relay and the page exchange them (RFC 8259).
    Numbers are kept as integers: the only number the code writes itself
    is the `confidence: 0` of the relay's fallback result. */
module JsonValue {
  import opened Common

  datatype Json =
    | JNull
    | JBool(b: bool)
    | JNumber(n: int)
    | JString(s: string)
    | JArray(items: seq<Json>)
    | JObject(fields: map<string, Json>)

  /** `obj[key]`, when `obj` is an object that has `key`. */
  function Field(obj: Json, key: string): Option<Json> {
    if obj.JObject? && key in obj.fields then Some(obj.fields[key]) else None
  }

  /** JavaScript truthiness of a parsed JSON value: `null`, `false`, `0` and
      `""` are falsy; every array and every object, empty or not, is truthy. */
  predicate IsTruthy(j: Json) {
    match j
    case JNull => false
    case JBool(b) => b
    case JNumber(n) => n != 0
    case JString(s) => s != ""
    case JArray(_) => true
    case JObject(_) => true
  }

  /** The one-field object `{ error: message }` every error response carries. */
  function ErrorObject(message: string): Json {
    JObject(map["error" := JString(message)])
  }
}
