/** Failure-carrying datatypes used in place of JavaScript's `null` and thrown errors. */
module Wrappers {

  /** `None` stands for JavaScript's `null`/`undefined`. */
  datatype Option<+T> = None | Some(value: T) {
    function GetOr(default: T): T {
      match this
      case Some(v) => v
      case None => default
    }
  }

  /** `Failure` stands for an `Error` the source throws. */
  datatype Result<+R, +E> = Success(value: R) | Failure(error: E)
}
