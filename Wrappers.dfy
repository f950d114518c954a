/** Option and Result values, standing for JavaScript's `null`/`undefined`
    and for the error path of an operation that can fail. */
module Wrappers {
  datatype Option<+T> = None | Some(value: T)

  datatype Result<+T, +E> = Ok(value: T) | Err(error: E)
}
