/** Option and Result, used for JavaScript's `undefined` and for thrown exceptions. */
module Wrappers {

  datatype Option<+T> = None | Some(value: T)

  /** Ok carries a returned value; Err stands for an exception the JavaScript code throws. */
  datatype Result<+T, +E> = Ok(value: T) | Err(error: E)
}
