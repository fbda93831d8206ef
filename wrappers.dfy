/** Option, Result and Outcome: the model's stand-ins for `None` and for raised exceptions. */
module Wrappers {

  datatype Option<+T> = None | Some(value: T)

  /** The value of an operation that either returns or raises. */
  datatype Result<+T, +E> = Ok(value: T) | Err(error: E)

  /** The value of an operation that returns nothing or raises. */
  datatype Outcome<+E> = Pass | Fail(error: E)
}
