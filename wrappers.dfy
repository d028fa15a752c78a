/** Option and Result, the two failure-carrying shapes the model uses for JavaScript's
    "value or nothing" and "value or thrown error". */
module Wrappers {

  datatype Option<+T> = None | Some(value: T)

  datatype Result<+T, +E> = Ok(value: T) | Err(error: E)
}
