/**
 * JSON values as the two server routes receive them, with JavaScript's
 * truthiness and optional property access (`v?.key`).
 * Numbers are integers here: fractional numbers and NaN are not modelled.
 */
module JsonValue {
  import opened Wrappers

  datatype Json =
    | JNull
    | JBool(b: bool)
    | JNum(n: int)
    | JStr(s: string)
    | JArr(items: seq<Json>)
    | JObj(fields: map<string, Json>)

  /** JavaScript truthiness: `null`, `false`, `0` and `""` are falsy, everything else is truthy. */
  predicate Truthy(v: Json)
  {
    match v
    case JNull => false
    case JBool(b) => b
    case JNum(n) => n != 0
    case JStr(s) => s != ""
    case JArr(_) => true
    case JObj(_) => true
  }

  /** An optional value is truthy when it is present and its value is truthy (`undefined` is falsy). */
  predicate TruthyOpt(v: Option<Json>)
  {
    v.Some? && Truthy(v.value)
  }

  /**
   * `v?.key`: the property of an object, `None` (undefined) for a missing key
   * and for every value that is not an object.
   */
  function Get(v: Json, key: string): (r: Option<Json>)
    ensures r.Some? <==> v.JObj? && key in v.fields
    ensures r.Some? ==> r.value == v.fields[key]
  {
    match v
    case JObj(fields) => if key in fields then Some(fields[key]) else None
    case _ => None
  }

  /** `v?.key` on a possibly undefined value. */
  function GetOpt(v: Option<Json>, key: string): (r: Option<Json>)
    ensures v.None? ==> r.None?
    ensures v.Some? ==> r == Get(v.value, key)
  {
    if v.None? then None else Get(v.value, key)
  }
}
