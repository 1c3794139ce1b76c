/** Option and Result, the two failure-carrying datatypes the model uses for
    missing values and for operations that throw or return an error value. */
module Wrappers {

  datatype Option<+T> = None | Some(value: T)

  datatype Result<+R, +E> = Ok(value: R) | Err(error: E)
}
