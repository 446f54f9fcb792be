/**
 * JSON values as they cross the HTTP boundary, and the two truthiness rules
 * the code base tests them with: JavaScript's (`!value`, `a || b`) and
 * Python's (`if not value`).
 */
module Json {
  import opened Wrappers

  datatype Json =
    | JNull
    | JBool(b: bool)
    | JNum(n: real)
    | JStr(s: string)
    | JArr(items: seq<Json>)
    | JObj(fields: map<string, Json>)

  /** JavaScript truthiness of a JSON value (NaN and -0 are not JSON values). */
  predicate JsTruthy(v: Json) {
    match v
    case JNull => false
    case JBool(b) => b
    case JNum(n) => n != 0.0
    case JStr(s) => s != ""
    case JArr(_) => true
    case JObj(_) => true
  }

  /** JavaScript truthiness of a value that may be `undefined` (`None`). */
  predicate JsTruthyOpt(v: Option<Json>) {
    v.Some? && JsTruthy(v.value)
  }

  /** Python truthiness: `None`, `False`, `0`, `""`, `[]` and `{}` are falsy. */
  predicate PyTruthy(v: Json) {
    match v
    case JNull => false
    case JBool(b) => b
    case JNum(n) => n != 0.0
    case JStr(s) => s != ""
    case JArr(items) => items != []
    case JObj(fields) => fields != map[]
  }

  /** A property read `o.key`: only objects have properties here; anything else reads `undefined`. */
  function Property(o: Json, key: string): (r: Option<Json>)
    ensures r.Some? <==> (o.JObj? && key in o.fields)
    ensures r.Some? ==> r.value == o.fields[key]
  {
    if o.JObj? && key in o.fields then Some(o.fields[key]) else None
  }
}
