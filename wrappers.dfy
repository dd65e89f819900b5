/** Failure-carrying datatypes shared by the modules of this project. */
module Wrappers {

  /** A value that may be absent (a JavaScript `null`/`undefined`, a Python `None`). */
  datatype Option<+T> = None | Some(value: T)

  /** The outcome of an operation that either succeeds with a value or fails with an error. */
  datatype Result<+R, +E> = Success(value: R) | Failure(error: E)
}
