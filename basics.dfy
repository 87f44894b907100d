/** Option and Result, the usual failure-carrying wrappers. */
module Basics {

  datatype Option<+T> = None | Some(value: T)

  /** A value, or the error the source raises or returns instead of it. */
  datatype Result<+T, +E> = Ok(value: T) | Err(error: E)
}
