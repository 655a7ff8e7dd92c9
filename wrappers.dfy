/** Option and Result values shared by the other modules. */
module Wrappers {

  /** A value that may be absent (JavaScript `null` / `undefined`). */
  datatype Option<+T> = None | Some(value: T)

  /** The outcome of a check: a parsed value or the error that explains why not. */
  datatype Result<+R, +E> = Success(value: R) | Failure(error: E)
}
