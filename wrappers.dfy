/** Failure-carrying results shared by the modules of the model. */
module Wrappers {

  datatype Option<+T> = None | Some(value: T)

  /** Ok carries a value; Err carries the kind of exception the program raises. */
  datatype Result<+T, +E> = Ok(value: T) | Err(error: E)
}
