/** Option and Result, used for the error paths of the modelled code
    (a Python exception becomes an `Err`, a missing value a `None`). */
module Wrappers {

  datatype Option<+T> = None | Some(value: T)

  datatype Result<+T, +E> = Ok(value: T) | Err(error: E)
}
