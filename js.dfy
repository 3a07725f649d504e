/** JavaScript values as the front end handles them: a plain object is a map from its
    keys to its values, and a missing key reads as `undefined`. */
module Js {

  datatype JsValue =
    | Undefined
    | Null
    | Bool(b: bool)
    | Num(n: real)
    | Text(s: string)
    | Arr(items: seq<JsValue>)
    | Obj(fields: map<string, JsValue>)

  type JsObject = map<string, JsValue>

  /** JavaScript truthiness (NaN is not modelled). */
  predicate Truthy(v: JsValue) {
    match v
    case Undefined => false
    case Null => false
    case Bool(b) => b
    case Num(n) => n != 0.0
    case Text(s) => s != ""
    case Arr(_) => true
    case Obj(_) => true
  }

  /** `o[k]`. */
  function Get(o: JsObject, k: string): JsValue {
    if k in o then o[k] else Undefined
  }

  /** `(o[k] as number) || 0` on a numeric field: its value, or 0 when it is missing. */
  function NumOrZero(v: JsValue): real {
    if v.Num? then v.n else 0.0
  }
}
