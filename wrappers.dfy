/** Option and Result, the two outcome shapes used throughout the model. */
module Wrappers {

  datatype Option<+T> = None | Some(value: T)

  /** Rust's `Result<T, E>`: a success value or an error value. */
  datatype Result<+T, +E> = Ok(value: T) | Err(error: E)
}
