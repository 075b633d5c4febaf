/** Optional values and success-or-failure results, shared by every module. */
module Wrappers {

  /** A value that may be absent: JavaScript's `undefined` or an omitted key. */
  datatype Option<+T> = None | Some(value: T) {
    function GetOr(default: T): T {
      match this
      case Some(v) => v
      case None => default
    }
  }

  /** The outcome of an operation that either returns a value or throws. */
  datatype Result<+R, +E> = Success(value: R) | Failure(error: E)
}
