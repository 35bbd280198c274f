/** Absence and failure, the two shapes the application's values take besides plain data. */
module Wrappers {

  /** A value that may be missing: a record field that is `undefined` or `null`. */
  datatype Option<+T> = None | Some(value: T) {

    /** The value, or `default` when it is missing (the `??` idiom). */
    function GetOr(default: T): T {
      match this
      case Some(v) => v
      case None => default
    }
  }

  /** The settled outcome of an awaited call: it resolved with a value or rejected with an error. */
  datatype Result<+R, +E> = Success(value: R) | Failure(error: E)
}
