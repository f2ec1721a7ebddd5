/** Failure-carrying result types used across the model. */
module Wrappers {

  /** `None` stands for a C# `null` reference. */
  datatype Option<+T> = None | Some(value: T)

  /** Either the value an operation produced or the exception it raised. */
  datatype Result<+R, +E> = Success(value: R) | Failure(error: E)
}
