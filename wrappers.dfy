/** Option and Result, the two wrappers the contract's Rust signatures use. */
module Wrappers {

  /** A value that may be absent: the storage slot before anything is saved in it. */
  datatype Option<+T> = None | Some(value: T)

  /** The outcome of an operation that can fail with an error of type E. */
  datatype Result<+T, +E> = Ok(value: T) | Err(error: E)
}
