/** Small value types shared by the model: optional values, results, bytes and
    the JavaScript values whose truthiness the controller tests. */
module Js {

  datatype Option<+T> = None | Some(value: T)

  /** An error a callback reports. swarm.js tests `if (err)`, so only a truthy
      error fails an operation: errors are non-empty strings, and a callback
      that passes a falsy `err` (`''`, `null`, `0`, ...) passes `None`. */
  type Error = s: string | s != "" witness "error"

  datatype Result<+T> = Ok(value: T) | Err(error: Error)

  newtype byte = x: int | 0 <= x < 256

  /** A JavaScript value, as far as its truthiness is concerned. */
  datatype JsValue =
    | Undefined
    | Null
    | Bool(b: bool)
    | Num(x: real)
    | NaN
    | Str(s: string)
    | Obj

  /** JavaScript truthiness: what `!!v` and `if (v)` compute. */
  predicate Truthy(v: JsValue) {
    match v
    case Undefined => false
    case Null => false
    case Bool(b) => b
    case Num(x) => x != 0.0
    case NaN => false
    case Str(s) => s != ""
    case Obj => true
  }
}
