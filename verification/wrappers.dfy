/** Failure-carrying datatypes shared by the modules of this model. */
module Wrappers {

  /** A value that may be absent, as Python's `None` or a missing attachment. */
  datatype Option<+T> = None | Some(value: T)

  /** The outcome of an operation that can raise: a value or an error. */
  datatype Result<+T, +E> = Ok(value: T) | Err(error: E)
}
