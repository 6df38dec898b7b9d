/**
 * Small value wrappers shared by the model: an optional value, the outcome of a
 * call into the remote generative service, and a result carrying a domain error.
 */
module Wrappers {

  /** A value that may be absent (the source's `T | null` and optional fields). */
  datatype Option<+T> = None | Some(value: T)

  /**
   * What an awaited call into the remote service produced: the value it resolved
   * with, or a rejection. The remote service itself is not modelled; its outcome
   * is passed into the model as this parameter.
   */
  datatype Outcome<+T> = Success(value: T) | Failure

  /** The value an operation returns, or the error it throws. */
  datatype Result<+T, +E> = Ok(value: T) | Err(error: E)
}
