/** Failure-carrying values shared by every reader, writer and batchlet of the model. */
module Wrappers {

  /** A value that may be absent: Java's `null` for an optional property or return value. */
  datatype Option<+T> = None | Some(value: T)

  /** The outcome of an operation that either completes or throws. */
  datatype Result<+T, +E> = Ok(value: T) | Err(error: E)
}
