/** Option and Result values used across the model: Java's null and Optional,
    JavaScript's undefined, and thrown exceptions as error values. */
module Wrappers {

  datatype Option<+T> = None | Some(value: T) {
    function GetOr(default: T): T {
      match this
      case Some(v) => v
      case None => default
    }
  }

  /** A computation that either returns a value or throws an exception
      carrying a message. */
  datatype Result<+T> = Success(value: T) | Failure(error: string)

  /** Message of `Optional.orElseThrow()` without a supplier. */
  const NoValuePresent := "No value present"
}
