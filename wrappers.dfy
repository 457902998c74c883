/** Failure-carrying values shared by every module, and Go's `error` as a message. */
module Wrappers {

  datatype Option<+T> = None | Some(value: T)

  datatype Result<+T, +E> = Success(value: T) | Failure(error: E)

  /** A Go `error` value, identified by the text `err.Error()` returns. */
  datatype Error = Error(msg: string)

  /** `fmt.Errorf("<context>: %w", err)`: the wrapped error's text after a fixed prefix. */
  function Wrap(context: string, e: Error): Error
  {
    Error(context + ": " + e.msg)
  }
}
