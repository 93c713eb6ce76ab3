/** Optional values and fallible results, as Swift's `Optional` and `Result`. */
module Wrappers {

  /** Swift's `T?`: `nil` is `None`. */
  datatype Option<+T> = None | Some(value: T) {

    /** Swift's `x ?? default`. */
    function GetOr(default: T): T {
      match this
      case Some(v) => v
      case None => default
    }
  }

  /** Swift's `Result<T, E>`. */
  datatype Result<+T, +E> = Success(value: T) | Failure(error: E)
}
