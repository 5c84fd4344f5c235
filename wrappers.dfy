/** Option and Result, the two wrappers the model uses for Python's `None`
    and for raised exceptions. */
module Wrappers {

  datatype Option<+T> = None | Some(value: T)

  /** `Failure` carries the message of the exception the source raises. */
  datatype Result<+T, +E> = Success(value: T) | Failure(error: E)
}
