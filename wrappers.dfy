/** Option and Result, used for nullable columns and for handlers that either
    answer or raise an HTTP error. */
module Wrappers {

  datatype Option<+T> = None | Some(value: T)

  datatype Result<+T, +E> = Ok(value: T) | Err(error: E)
}
