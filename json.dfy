/** The values a request handler sees after `request.get_json()`, and the
    few Python behaviours of those values that the handlers rely on:
    truthiness (`not x`), hashability (`hash(x)`) and `dict.get`. */
module Json {

  datatype Option<+T> = None | Some(value: T)

  /** A decoded JSON document: `null`, booleans, numbers, strings, arrays
      and objects become None, bool, int/float, str, list and dict. */
  datatype Json =
    | JNull
    | JBool(b: bool)
    | JNum(n: real)
    | JStr(s: string)
    | JArr(items: seq<Json>)
    | JObj(fields: map<string, Json>)

  /** The exceptions that reach a handler's `except Exception` clause. */
  datatype Raised =
    | NotJson      // request.get_json() refused the body
    | NoGetMethod  // the body decoded to something other than a dict: AttributeError on .get
    | Unhashable   // hash() of a list or a dict: TypeError

  datatype Result<+T> = Ok(value: T) | Err(raised: Raised)

  /** Python truthiness: None, False, 0, 0.0, "", [] and {} are false. */
  predicate Truthy(v: Json) {
    match v
    case JNull => false
    case JBool(b) => b
    case JNum(n) => n != 0.0
    case JStr(s) => s != ""
    case JArr(items) => items != []
    case JObj(fields) => fields != map[]
  }

  /** `hash` accepts None, booleans, numbers and strings; lists and dicts raise TypeError. */
  predicate Hashable(v: Json) {
    !v.JArr? && !v.JObj?
  }

  /** `d.get(key, default)` on a dict. */
  function Get(fields: map<string, Json>, key: string, default: Json): Json {
    if key in fields then fields[key] else default
  }
}
