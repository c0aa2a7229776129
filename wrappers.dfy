/** Option and Result, used for absent values and for thrown exceptions. */
module Wrappers {

  datatype Option<+T> = None | Some(value: T) {
    function GetOr(default: T): T {
      match this
      case Some(v) => v
      case None => default
    }
  }

  /** `Err` carries the value a JavaScript `throw` raises. */
  datatype Result<+R, +E> = Ok(value: R) | Err(error: E)
}
