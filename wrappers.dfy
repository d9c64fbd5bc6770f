/** Optional values (Kotlin's nullable types) and results with an error. */
module Wrappers {

  datatype Option<+T> = None | Some(value: T) {
    /** Kotlin's elvis operator `?:`. */
    function GetOr(default: T): T {
      match this
      case Some(v) => v
      case None => default
    }
  }

  datatype Result<+T, +E> = Success(value: T) | Failure(error: E)
}
