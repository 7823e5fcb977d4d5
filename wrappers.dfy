/** Option and Result, the two shapes Go's nil pointers and (value, error) pairs take here. */
module Wrappers {

  datatype Option<+T> = None | Some(value: T)

  datatype Result<+R, +E> = Ok(value: R) | Err(error: E)
}
