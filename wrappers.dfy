/** Option and Result, the two failure-carrying values the model needs. */
module Wrappers {

  /** An optional value, as Rust's `Option`. */
  datatype Option<+T> = None | Some(value: T)

  /** A success or an error, as Rust's `Result`. */
  datatype Result<+T, +E> = Success(value: T) | Failure(error: E)
}
