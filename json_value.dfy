/**
 * The raw catalog records as JSON decodes them, and Python's `float(...)` over such values.
 * A record is a dictionary from field names to JSON values; lists and objects nested in a
 * field are never inspected, so they are one opaque `JComposite` case.
 */
module JsonValue {
  import opened Wrappers

  datatype Json = JNull | JBool(b: bool) | JNum(n: real) | JStr(s: string) | JComposite

  type Record = map<string, Json>

  /**
   * Python's `float` on a `str`, supplied by the caller: `Some(x)` when the text is a float
   * literal denoting `x`, `None` when `float` raises `ValueError`.
   */
  type FloatParser = string -> Option<real>

  /** `record.get(key)` */
  function Get(r: Record, key: string): (v: Option<Json>)
    ensures v.Some? <==> key in r
  {
    if key in r then Some(r[key]) else None
  }

  /** `record.get(key, default)` */
  function GetOr(r: Record, key: string, default: Json): Json {
    if key in r then r[key] else default
  }

  /** `float(v)`: `None` when Python raises (a non-numeric string, `None`, a list, a dict). */
  function PyFloat(parse: FloatParser, v: Json): (x: Option<real>)
    ensures v.JNum? ==> x == Some(v.n)
    ensures v.JBool? ==> x == Some(if v.b then 1.0 else 0.0)
    ensures v.JStr? ==> x == parse(v.s)
    ensures (v.JNull? || v.JComposite?) ==> x.None?
  {
    match v
    case JNum(n) => Some(n)
    case JBool(b) => Some(if b then 1.0 else 0.0)
    case JStr(s) => parse(s)
    case JNull => None
    case JComposite => None
  }

  /** A JSON value Python can use as a dictionary key (lists and dicts are unhashable). */
  predicate Hashable(v: Json) {
    !v.JComposite?
  }
}
