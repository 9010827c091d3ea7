/** Failure-carrying results shared by the other modules. */
module Wrappers {

  /** An optional value, as Rust's `Option<T>`. */
  datatype Option<+T> = None | Some(value: T)

  /** A value or the reason an operation could not complete. */
  datatype Result<+T, +E> = Ok(value: T) | Err(error: E)
}
