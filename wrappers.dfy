/** Option and Result, used for the error paths of the modelled code. */
module Wrappers {

  /** An optional value. `None` also stands for a pandas NaN where the source produces one. */
  datatype Option<+T> = None | Some(value: T)

  /** Either a value or the exception the source raises instead. */
  datatype Result<+T, +E> = Ok(value: T) | Err(error: E)
}
