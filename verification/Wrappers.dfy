/** Result and option types shared by every component of the model. */
module Wrappers {

  /** A nullable column, or a value that may be absent. */
  datatype Option<+T> = None | Some(value: T)

  /** A value, or the error returned instead of it. */
  datatype Result<+T, +E> = Ok(value: T) | Err(error: E)
}
