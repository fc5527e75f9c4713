/** Failure-compatible wrappers used throughout the model: an optional value
    (a JavaScript `null`/`undefined` or a missing field) and a value-or-error. */
module Wrappers {

  datatype Option<+T> = None | Some(value: T) {
    function GetOr(default: T): T {
      match this
      case Some(v) => v
      case None => default
    }
  }

  datatype Result<+R, +E> = Success(value: R) | Failure(error: E)
}
