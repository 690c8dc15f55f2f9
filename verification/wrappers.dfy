/** Option and Result values standing for Go's `(value, error)` and `(value, ok)` returns. */
module Wrappers {

  datatype Option<+T> = None | Some(value: T)

  /** A Go `(T, error)` pair: either a value or the error's message. */
  datatype Result<+T> = Ok(value: T) | Err(msg: string)

  /** A Go `error` on its own: nil or a message. */
  datatype Outcome = Pass | Fail(msg: string)
}
