/** Option and Result datatypes used for the values the remote-build command
    may or may not produce, and for the errors it raises. */
module Wrappers {

  datatype Option<+T> = None | Some(value: T)

  datatype Result<+T, +E> = Ok(value: T) | Err(error: E)
}
