/** The two result shapes shared by the other modules. */
module Wrappers {
  /** A nullable value: a column that may be NULL, a receipt that may be missing. */
  datatype Option<+T> = None | Some(value: T)

  /** A settled promise: a value, or the rejection that replaced it. */
  datatype Result<+T, +E> = Ok(value: T) | Err(error: E)
}
