/** Failure-carrying wrappers shared by the other modules. */
module Wrappers {

  /** A value that may be absent: a Go nil reference, a nil slice or a missing map entry. */
  datatype Option<+T> = None | Some(value: T)

  /** A Go `(value, error)` pair in which exactly one side is meaningful. */
  datatype Result<+T, +E> = Ok(value: T) | Err(error: E)
}
