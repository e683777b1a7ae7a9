/** Failure-carrying values used in place of Python's `None` and exceptions. */
module Wrappers {

  datatype Option<+T> = None | Some(value: T)

  datatype Result<+T, +E> = Success(value: T) | Failure(error: E)

  /** A Python call either returns a value or raises an exception. */
  datatype Outcome<+T, +E> = Returned(value: T) | Raised(error: E)
}
