/** Value-level stand-ins for a nullable reference and for a method that either
    returns normally or throws one of a closed set of exceptions. */
module Wrappers {

  /** A reference that may be null. */
  datatype Option<+T> = None | Some(value: T)

  /** The outcome of a check that returns nothing on success. */
  datatype Outcome<+E> = Pass | Fail(error: E)

  /** A value, or the error that prevented it from being produced. */
  datatype Result<+R, +E> = Success(value: R) | Failure(error: E)
}
