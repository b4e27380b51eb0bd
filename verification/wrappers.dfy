/** Option and Result: `null`/`undefined` values and thrown errors of the application. */
module Wrappers {

  datatype Option<+T> = None | Some(value: T)

  datatype Result<+T, +E> = Ok(value: T) | Err(error: E)
}
