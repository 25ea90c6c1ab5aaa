/** Option and Result, the two optional/failure shapes used by the model. */
module Wrappers {

  /** A value that may be absent: JavaScript's `null` or an undefined field. */
  datatype Option<+T> = None | Some(value: T)

  /** The outcome of a request handler: its response, or the error it raises. */
  datatype Result<+T, +E> = Ok(value: T) | Err(error: E)
}
