/** Failure-carrying result types used across the model. */
module Wrappers {

  /** An optional value: `None` stands for Python's `None`. */
  datatype Option<+T> = None | Some(value: T)

  /** The value of a call that either returns normally or raises. */
  datatype Result<+R, +E> = Success(value: R) | Failure(error: E)
}
