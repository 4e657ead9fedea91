/** Option and Result, the shapes Swift's `T?` and `Result<T, Error>` take in this model. */
module Wrappers {

  /** Swift's optional: `nil` or a value. */
  datatype Option<+T> = None | Some(value: T) {

    /** The wrapped value, or `default` when absent (Swift's `??`). */
    function GetOr(default: T): T {
      match this
      case Some(v) => v
      case None => default
    }
  }

  /** Swift's `Result`; also how a throwing call's outcome is written here
      (a returned value is `Success`, a thrown error is `Failure`). */
  datatype Result<+R, +E> = Success(value: R) | Failure(error: E)
}
