/** Option and Result, standing in for JavaScript's `null` and for a thrown error. */
module Wrappers {

  datatype Option<+T> = None | Some(value: T)

  datatype Result<+T, +E> = Ok(value: T) | Err(error: E)
}
