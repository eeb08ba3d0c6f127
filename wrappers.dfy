/** Option and Result, used for JavaScript's `undefined` and for thrown errors. */
module Wrappers {

  /** `None` stands for JavaScript's `undefined` (or an absent property). */
  datatype Option<+T> = None | Some(value: T) {
    function GetOr(default: T): T {
      match this
      case Some(v) => v
      case None => default
    }
  }

  /** A settled promise: fulfilled with a value or rejected with an error. */
  datatype Result<+T, +E> = Ok(value: T) | Err(error: E)
}
