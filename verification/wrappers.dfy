/** Option and Result values shared by the other modules. */
module Wrappers {

  /** A value that may be absent: `null`/`undefined` in the browser code. */
  datatype Option<+T> = None | Some(value: T)

  /** The outcome of an operation that can fail with an error value. */
  datatype Result<+T, +E> = Success(value: T) | Failure(error: E)
}
