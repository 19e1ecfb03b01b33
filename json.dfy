/** Parsed JSON values as the Python program sees them after `response.json()`,
    together with the two Python operations the client applies to them:
    truthiness (`x or y`, `if x`) and `dict.get(key, default)`. */
module Json {

  /** A parsed JSON document. Python's `None` and JSON `null` are the same
      value after parsing, so `JNull` also stands for a Python `None`.
      Numbers (Python `int` and `float`) are kept as reals. */
  datatype JsonValue =
    | JNull
    | JBool(b: bool)
    | JNumber(n: real)
    | JString(s: string)
    | JArray(elems: seq<JsonValue>)
    | JObject(fields: map<string, JsonValue>)

  /** Python truthiness of a parsed JSON value: `None`, `False`, zero, the
      empty string, the empty list and the empty dict are falsy. */
  predicate Truthy(v: JsonValue)
  {
    match v
    case JNull => false
    case JBool(b) => b
    case JNumber(n) => n != 0.0
    case JString(s) => s != ""
    case JArray(elems) => elems != []
    case JObject(fields) => fields != map[]
  }

  /** `d.get(key, default)` on a JSON object. */
  function Get(d: map<string, JsonValue>, key: string, default: JsonValue): JsonValue
  {
    if key in d then d[key] else default
  }
}
