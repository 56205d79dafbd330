/** Failure-carrying values shared by every module of the model. */
module Wrappers {

  /** A value that may be absent (Rust's `Option`). */
  datatype Option<+T> = None | Some(value: T)

  /** A value or an error (Rust's `Result`, or a panic modelled as an error). */
  datatype Result<+T, +E> = Ok(value: T) | Err(error: E)
}
