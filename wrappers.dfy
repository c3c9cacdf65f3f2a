/** Failure-carrying values shared by the other modules. */
module Wrappers {

  /** A value that may be absent: a Go map key that is not set, an error that is nil. */
  datatype Option<+T> = None | Some(value: T)

  /** The (value, error) pair a Go function returns, with exactly one of the two meaningful. */
  datatype Result<+T, +E> = Ok(value: T) | Err(error: E)
}
