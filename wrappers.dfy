/** Failure-compatible result types shared by every component. */
module Wrappers {

  /** Rust's `Option<T>`. */
  datatype Option<+T> = None | Some(value: T)

  /** Rust's `Result<T, E>`. */
  datatype Result<+R, +E> = Success(value: R) | Failure(error: E)

  /** Rust's `Result<(), E>`. */
  datatype Outcome<+E> = Pass | Fail(error: E)
}
