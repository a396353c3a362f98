/** Failure-compatible wrappers used across the model. */
module Wrappers {

  /** A value that may be absent (Python's `None`). */
  datatype Option<T> = None | Some(value: T)

  /** A computed value, or the error that stopped the computation. */
  datatype Result<T, E> = Success(value: T) | Failure(error: E)

  /** The outcome of an operation that changes state and returns nothing. */
  datatype Outcome<E> = Pass | Fail(error: E)
}
