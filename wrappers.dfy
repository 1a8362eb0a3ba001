/** Optional values and success-or-error outcomes shared by the model. */
module Wrappers {

  /** A value that may be absent, as Python's `None`. */
  datatype Option<+T> = None | Some(value: T)

  /** A write that either succeeds with a value or is refused with an error. */
  datatype Outcome<+T, +E> = Ok(value: T) | Err(error: E)
}
