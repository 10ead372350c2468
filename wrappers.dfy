/** Optional values and fallible results, shared by every module of the model. */
module Wrappers {

  /** A value that may be absent (JavaScript `undefined`, `null`, or an infinite extreme). */
  datatype Option<+T> = None | Some(value: T) {
    function GetOr(default: T): T {
      match this
      case Some(v) => v
      case None => default
    }
  }

  /** The outcome of an operation that can throw. */
  datatype Result<+T, +E> = Success(value: T) | Failure(error: E)
}
