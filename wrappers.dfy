/** Option and Result, the two failure-carrying datatypes the model uses
    for Rust's `Option<T>` and for the error exits of `main`. */
module Wrappers {

  datatype Option<+T> = None | Some(value: T)

  datatype Result<+R, +E> = Ok(value: R) | Err(error: E)
}
