/** Option and Result, the two failure-carrying datatypes the model uses. */
module Wrappers {

  /** A JavaScript value that may be `undefined`: `None` is the absent key. */
  datatype Option<+T> = None | Some(value: T) {
    function GetOr(default: T): T {
      match this
      case Some(v) => v
      case None => default
    }
  }

  /** The outcome of an operation that throws: `Failure` carries the error message. */
  datatype Result<+R> = Success(value: R) | Failure(error: string)
}
