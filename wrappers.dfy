/** Failure-carrying values for the Python code's optional keys and raised exceptions. */
module Wrappers {

  /** A dictionary key that may be absent (`dict.get` with a default). */
  datatype Option<+T> = None | Some(value: T) {
    function GetOr(default: T): T {
      match this
      case Some(v) => v
      case None => default
    }
  }

  /** A computation that either returns a value or raises an exception with a message. */
  datatype Result<+R> = Success(value: R) | Failure(error: string)
}
