/** Option and Result: the absent Java reference and the thrown exception, as values. */
module Wrappers {

  datatype Option<+T> = None | Some(value: T)

  /** Ok carries the value a call returns, Err the exception it throws. */
  datatype Result<+T, +E> = Ok(value: T) | Err(error: E)
}
