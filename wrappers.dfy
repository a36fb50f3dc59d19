/** Failure-carrying wrappers shared by the other modules. */
module Wrappers {

  datatype Option<+T> = None | Some(value: T)

  /** The value of an operation that returns either a result or an error. */
  datatype Result<+T, +E> = Success(value: T) | Failure(error: E)
}
