/** JSON values as `JSON.parse` produces them, and the two JavaScript
    operations the validators apply to them: the `in` operator, which
    throws a TypeError on anything that is not an object, and
    `Array.isArray`. Object key order is irrelevant to both and is not kept.
    Text encoding and decoding (`JSON.stringify` / `JSON.parse`) are not
    part of this model. */
module Json {
  import opened Wrappers

  datatype Json =
    | JNull
    | JBool(b: bool)
    | JNum(n: real)
    | JStr(s: string)
    | JArr(items: seq<Json>)
    | JObj(fields: map<string, Json>)

  /** The TypeError `key in value` raises on a primitive or null. */
  datatype TypeError = InOnNonObject(key: string)

  /** `key in v`. Arrays are objects: of the named keys they own only
      "length" (their index keys are never asked for here). */
  function HasKey(v: Json, key: string): (r: Result<bool, TypeError>)
    ensures r.Err? <==> !(v.JObj? || v.JArr?)
    ensures v.JObj? ==> r == Ok(key in v.fields)
  {
    match v
    case JObj(fields) => Ok(key in fields)
    case JArr(_) => Ok(key == "length")
    case _ => Err(InOnNonObject(key))
  }

  /** Property read `v[key]`, `undefined` (None) when absent. */
  function Get(v: Json, key: string): Option<Json> {
    if v.JObj? && key in v.fields then Some(v.fields[key]) else None
  }

  predicate IsArray(v: Json) { v.JArr? }
}
