/** Option and Result values used wherever the Go code returns `(value, ok)`
    or `(value, err)`. */
module Wrappers {

  datatype Option<+T> = None | Some(value: T)

  datatype Result<+R, +E> = Ok(value: R) | Err(error: E)
}
