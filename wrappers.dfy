/** Option and Result, the failure-carrying datatypes the rest of the model uses
    for Python's `None` and for exceptions that end an operation. */
module Wrappers {

  datatype Option<+T> = None | Some(value: T)

  datatype Result<+T, +E> = Ok(value: T) | Err(error: E)
}
