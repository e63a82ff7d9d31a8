/** Failure-carrying datatypes shared by the other modules. */
module Wrappers {

  /** A value that may be absent, such as an optional environment variable. */
  datatype Option<+T> = None | Some(value: T)

  /** A computation that either produces a value or throws an error message. */
  datatype Result<+T, +E> = Ok(value: T) | Err(error: E)
}
