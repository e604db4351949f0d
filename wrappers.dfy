/** Option and Result values used for the backend's missing fields and for the
    `{ success, error }` objects that every service call returns. */
module Wrappers {

  datatype Option<+T> = None | Some(value: T) {
    /** The value, or `default` when absent (JavaScript's `x || default` on a field that may be missing). */
    function GetOr(default: T): T {
      match this
      case Some(v) => v
      case None => default
    }
  }

  /** `{ success: true, ... }` or `{ success: false, error: message }`. */
  datatype Result<+T> = Success(value: T) | Failure(error: string)
}
