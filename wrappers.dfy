/** Option and Result values shared by the modules of the session engine. */
module Wrappers {

  /** A JavaScript value that may be `null` or `undefined` (both are None here). */
  datatype Option<+T> = None | Some(value: T)

  /** The outcome of an operation that reports a user-visible error instead of a value. */
  datatype Result<+T, +E> = Ok(value: T) | Err(error: E)
}
