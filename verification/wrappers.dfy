/** Failure-carrying datatypes shared by the route models. */
module Wrappers {

  /** A value that may be missing: an absent header, a parse that failed. */
  datatype Option<+T> = None | Some(value: T) {

    /** The carried value, or `default` when there is none. */
    function GetOr(default: T): T {
      match this
      case Some(v) => v
      case None => default
    }
  }

  /** A computation that either succeeds with a value or fails with an error value. */
  datatype Result<+R, +E> = Success(value: R) | Failure(error: E)
}
