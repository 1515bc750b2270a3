/** Failure-carrying wrappers shared by the other modules. */
module Wrappers {

  /** A value that may be absent; stands for Go's nil slices and nil errors. */
  datatype Option<+T> = None | Some(value: T)

  /** A value or an error, as in Go's `(value, err)` return pairs. */
  datatype Result<+R, +E> = Ok(value: R) | Err(error: E)
}
