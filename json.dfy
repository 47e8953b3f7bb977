/**
 * JSON values as the JavaScript code stores and reads them, with JavaScript's
 * truthiness, and the text a `localStorage` item can hold.
 */
module Json {
  import opened Wrappers

  datatype Value =
    | Null
    | Bool(b: bool)
    | Num(n: real)
    | Str(s: string)
    | Arr(a: seq<Value>)
    | Obj(m: map<string, Value>)

  /** `!!v`: null, false, 0 and "" are falsy; arrays and objects are truthy. */
  predicate Truthy(v: Value) {
    match v
    case Null => false
    case Bool(b) => b
    case Num(n) => n != 0.0
    case Str(s) => s != ""
    case Arr(_) => true
    case Obj(_) => true
  }

  /** `v[k]` for a property read: `None` is `undefined`. */
  function Field(v: Value, k: string): (r: Option<Value>)
    ensures r.Some? <==> v.Obj? && k in v.m
  {
    if v.Obj? && k in v.m then Some(v.m[k]) else None
  }

  /** `v.k || d`: the property when it is present and truthy, otherwise `d`. */
  function FieldOr(m: map<string, Value>, k: string, d: Value): (r: Value)
    ensures k in m && Truthy(m[k]) ==> r == m[k]
    ensures !(k in m && Truthy(m[k])) ==> r == d
  {
    if k in m && Truthy(m[k]) then m[k] else d
  }

  /**
   * `t < v` for an integer `t`: numbers compare as numbers, a boolean and
   * `null` as 1 or 0, and anything else converts to NaN, for which `<` is
   * false (numeric strings are not modelled).
   */
  predicate LessThan(t: int, v: Value) {
    match v
    case Num(n) => (t as real) < n
    case Bool(b) => t < (if b then 1 else 0)
    case Null => t < 0
    case _ => false
  }

  /** `{ ...v }`: the own properties a spread copies (only objects are modelled). */
  function Spread(v: Value): map<string, Value> {
    if v.Obj? then v.m else map[]
  }

  /**
   * The text of one `localStorage` item: either the text `JSON.stringify(v)`
   * produces for some `v`, or text that is not valid JSON at all.
   */
  datatype Raw = Json(v: Value) | Invalid(text: string)

  /** `JSON.parse(text)`: `None` when it throws. */
  function Parse(r: Raw): (p: Option<Value>)
    ensures p.None? <==> r.Invalid?
  {
    match r
    case Json(v) => Some(v)
    case Invalid(_) => None
  }
}
