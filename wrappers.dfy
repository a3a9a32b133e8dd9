/** Option and Result values used for the source's `None` and its exceptions. */
module Wrappers {

  datatype Option<+T> = None | Some(value: T)

  datatype Result<+T, +E> = Ok(value: T) | Err(error: E)

  /** Pass or fail without a value, for operations that either return or raise. */
  datatype Outcome<+E> = Pass | Fail(error: E)
}
