/** Option and Result, used for the source's "not found" lookups and its raised errors. */
module Wrappers {

  datatype Option<+T> = None | Some(value: T)

  datatype Result<+T, +E> = Ok(value: T) | Err(error: E)

  /** The outcome of an operation that returns no value: success, or the error it raised. */
  datatype Outcome<+E> = Pass | Fail(error: E)
}
