/** Values produced by `JSON.parse`, and the few JavaScript operations the
    record store applies to them: reading a property, `typeof x === 'string'`
    and `Boolean(x)`. */
module JsonData {
  import opened Optional

  /** A parsed JSON value. Numbers are kept as reals (JSON has no NaN). */
  datatype Json =
    | JNull
    | JBool(b: bool)
    | JNum(n: real)
    | JStr(s: string)
    | JArr(items: seq<Json>)
    | JObj(fields: map<string, Json>)

  /** `v.key`: an own field of an object; `undefined` (None) for anything else.
      None of the keys the store reads is a property of arrays, strings or
      `Object.prototype`, so this is exact for those keys. */
  function Get(v: Json, key: string): Option<Json>
  {
    if v.JObj? && key in v.fields then Some(v.fields[key]) else None
  }

  /** `Boolean(x)` on a possibly-undefined JSON value. */
  predicate Truthy(v: Option<Json>)
  {
    match v
    case None => false
    case Some(JNull) => false
    case Some(JBool(b)) => b
    case Some(JNum(n)) => n != 0.0
    case Some(JStr(s)) => s != ""
    case Some(JArr(_)) => true
    case Some(JObj(_)) => true
  }

  /** `typeof x === 'string' ? x : otherwise`. */
  function StringOr(v: Option<Json>, otherwise: string): string
  {
    if v.Some? && v.value.JStr? then v.value.s else otherwise
  }
}
