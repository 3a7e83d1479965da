/**
 * Values as `JSON.parse` produces them, and the two JavaScript operations the
 * collector applies to them: reading a property and testing it for truthiness.
 */
module Json {
  import opened Wrappers

  /**
   * A parsed JSON value. Numbers are exact reals, not IEEE doubles: the rounding
   * `JSON.parse` does is not modelled, so truthiness (a test against 0) and the
   * integrality test on response ids look at the exact value.
   */
  datatype Json =
    | JNull
    | JBool(b: bool)
    | JNum(n: real)
    | JStr(s: string)
    | JArr(items: seq<Json>)
    | JObj(fields: map<string, Json>)

  /** `value.name`: `None` stands for `undefined` (a missing property or a non-object value). */
  function Field(value: Json, name: string): Option<Json>
  {
    if value.JObj? && name in value.fields then Some(value.fields[name]) else None
  }

  /** JavaScript truthiness of a property read: `undefined`, `null`, `false`, `0` and `""` are falsy. */
  predicate Truthy(v: Option<Json>)
  {
    match v
    case None => false
    case Some(JNull) => false
    case Some(JBool(b)) => b
    case Some(JNum(n)) => n != 0.0
    case Some(JStr(s)) => s != ""
    case Some(_) => true
  }
}
