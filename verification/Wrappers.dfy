/** The two failure-compatible datatypes every other module shares. */
module Wrappers {

  /** A value, or the source's `None`. */
  datatype Option<+T> = None | Some(value: T)

  /** A value, or the reason the source raised instead. */
  datatype Result<+T, +E> = Ok(value: T) | Err(error: E)
}
