/** Option and Result, the failure-carrying values the rest of the model returns
    where the Python code raises an exception or leaves an attribute unset. */
module Wrappers {

  datatype Option<+T> = None | Some(value: T)

  datatype Result<+T, +E> = Ok(value: T) | Err(error: E)
}
