/** Option, Result and Outcome: the model's stand-ins for null and for thrown exceptions. */
module Wrappers {
  datatype Option<+T> = None | Some(value: T)

  /** A value, or the error the source would have thrown instead of producing it. */
  datatype Result<+T, +E> = Ok(value: T) | Err(error: E)

  /** The result of an operation that returns nothing, or the error it would have thrown. */
  datatype Outcome<+E> = Pass | Fail(error: E)
}
