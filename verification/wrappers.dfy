/** Failure-carrying values used where the modelled Python code either
    returns nothing (a missing dictionary key) or raises an exception. */
module Wrappers {

  /** A value that may be absent. */
  datatype Option<+T> = None | Some(value: T)

  /** A value, or the reason it could not be produced. */
  datatype Result<+T, +E> = Success(value: T) | Failure(error: E)
}
