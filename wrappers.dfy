/** Option and Result: absent JSON values and thrown exceptions. */
module Wrappers {

  /** A value that may be absent (JavaScript `undefined` or `null`). */
  datatype Option<+T> = None | Some(value: T)

  /** The outcome of code that either returns a value or throws. */
  datatype Result<+R, +E> = Success(value: R) | Failure(error: E)
}
