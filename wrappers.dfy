/** Result types used to model the exceptions of the map creator. */
module Wrappers {

  /** A value that may be absent (Python's `None` default arguments). */
  datatype Option<+T> = None | Some(value: T)

  /** A computed value, or the error that the source would raise instead. */
  datatype Result<+R, +E> = Success(value: R) | Failure(error: E)

  /** The outcome of an operation that only changes state: it passes or raises. */
  datatype Outcome<+E> = Pass | Fail(error: E)
}
