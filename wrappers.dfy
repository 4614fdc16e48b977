/** Option and Result, used wherever the source raises an exception,
    fails an assertion or leaves a value undefined. */
module Wrappers {

  datatype Option<+T> = None | Some(value: T)

  datatype Result<+T, +E> = Ok(value: T) | Err(error: E)
}
