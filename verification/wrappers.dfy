/** Optional values and results with an error, used for the nullable fields
    and the thrown-or-returned errors of the application. */
module Wrappers {

  /** A value that may be absent (`null` / `undefined` in the application). */
  datatype Option<+T> = None | Some(value: T) {

    /** The wrapped value, or `default` when absent. */
    function GetOr(default: T): T {
      match this
      case Some(v) => v
      case None => default
    }
  }

  /** Either a value or an error, standing for a call that returns or throws. */
  datatype Result<+R, +E> = Success(value: R) | Failure(error: E)
}
