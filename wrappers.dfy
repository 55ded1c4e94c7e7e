/** Failure-carrying result types shared by both solvers. */
module Wrappers {

  /** A value that may be absent: Rust's `Option`. */
  datatype Option<+T> = None | Some(value: T)

  /** A value or the reason there is none. */
  datatype Result<+T, +E> = Ok(value: T) | Err(error: E)
}
