/** Failure-carrying wrappers shared by the query-state model. */
module Wrappers {

  /** A value that may be absent; stands for a reference that may be null. */
  datatype Option<+T> = None | Some(value: T)

  /** The outcome of an operation that either yields a value or raises an error. */
  datatype Result<+T, +E> = Success(value: T) | Failure(error: E)
}
