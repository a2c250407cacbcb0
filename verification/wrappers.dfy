/** Option and Result types for nullable JSON fields and fallible upstream calls. */
module Wrappers {

  /** A JSON field that may be `null` or `undefined` (None) or carry a value (Some). */
  datatype Option<+T> = None | Some(value: T) {

    /** The carried value, or `default` when the field is absent. */
    function GetOr(default: T): T {
      match this
      case Some(v) => v
      case None => default
    }
  }

  /** The outcome of a call that may fail with an error value. */
  datatype Result<+R, +E> = Success(value: R) | Failure(error: E)
}
