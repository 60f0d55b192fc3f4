/** Rust's `Option` and `Result`, as plain datatypes. */
module Wrappers {

  /** An optional value: `None` is "unset". */
  datatype Option<+T> = None | Some(value: T)

  /** The outcome of a step that may fail with an error value. */
  datatype Result<+T, +E> = Ok(value: T) | Err(error: E)
}
