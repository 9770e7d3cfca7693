/** Failure-carrying datatypes shared by the modules of this project. */
module Wrappers {

  /** A value that may be missing: a nil pointer, an absent map entry, a lapsed key. */
  datatype Option<+T> = None | Some(value: T)

  /** A Go `(value, error)` pair, of which exactly one side is meaningful. */
  datatype Result<+T, +E> = Ok(value: T) | Err(error: E)
}
