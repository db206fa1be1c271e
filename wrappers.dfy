/** Absent-or-present values and value-or-error results, shared by every module. */
module Wrappers {

  /** A value that may be missing (JavaScript `undefined`/`null`). */
  datatype Option<+T> = None | Some(value: T) {
    function GetOr(default: T): T {
      match this
      case Some(v) => v
      case None => default
    }
  }

  /** A computed value, or the message of the `Error` that was thrown instead. */
  datatype Result<+R, +E> = Success(value: R) | Failure(error: E)
}
