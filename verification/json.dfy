/** JSON documents as the agent, the request handlers and the browser store exchange them. */
module JsonValues {
  import opened Wrappers

  /** A parsed JSON value. Numbers are integers only; fractional numbers are not part of this model. */
  datatype Json =
    | JNull
    | JBool(b: bool)
    | JNum(n: int)
    | JStr(s: string)
    | JArr(items: seq<Json>)
    | JObj(fields: map<string, Json>)

  /** A JSON parser as a partial function: `None` is a parse failure (an exception in the source).
      Python's `json.loads` and JavaScript's `JSON.parse` are both modelled by a value of this type. */
  type Parser = string -> Option<Json>

  /** JavaScript truthiness of a value produced by `JSON.parse`: objects and arrays are always truthy. */
  predicate JsTruthy(j: Json) {
    match j
    case JNull => false
    case JBool(b) => b
    case JNum(n) => n != 0
    case JStr(s) => s != ""
    case JArr(_) => true
    case JObj(_) => true
  }

  /** JavaScript's `value.key` on an object produced by `JSON.parse`: a missing key reads as `undefined`,
      which is represented by `None`. */
  function Member(fields: map<string, Json>, key: string): Option<Json> {
    if key in fields then Some(fields[key]) else None
  }
}
