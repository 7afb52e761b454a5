/** Option and Result, the two failure-carrying datatypes the model uses. */
module Wrappers {

  /** A value that may be absent: a missing JSON key, an unset setting. */
  datatype Option<+T> = None | Some(value: T)

  /** The outcome of a check that either yields a value or reports an error. */
  datatype Result<+T, +E> = Success(value: T) | Failure(error: E)
}
