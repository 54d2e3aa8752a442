/** Failure-carrying values used throughout the model: PHP's `null`, `false`
    and thrown exceptions become explicit cases of these datatypes. */
module Wrappers {

  /** A value that may be absent (PHP `null`). */
  datatype Option<+T> = None | Some(value: T)

  /** Either a successful value or the error that the PHP code would throw. */
  datatype Result<+T, +E> = Success(value: T) | Failure(error: E)
}
