/** Option and Result: the null-able values and the thrown errors of the
    application, as values. */
module Wrappers {

  /** A value that may be absent: JavaScript's `null`/`undefined`. */
  datatype Option<+T> = None | Some(value: T)

  /** The outcome of a request handler: a value, or the error it throws. */
  datatype Result<+R, +E> = Ok(value: R) | Err(error: E)
}
