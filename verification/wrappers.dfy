/** Failure-carrying values shared by every module of the model. */
module Wrappers {

  /** A value that may be absent: a missing cache entry, a failed upstream request. */
  datatype Option<+T> = None | Some(value: T)

  /** The outcome of an operation that can throw: `Err` carries the thrown error. */
  datatype Result<+T, +E> = Ok(value: T) | Err(error: E)
}
