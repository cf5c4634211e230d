/** Absent values and failures, as the scanner's data and exceptions need them. */
module Wrappers {

  /** A value that may be missing: `None` stands for Python's `None` or an absent key. */
  datatype Option<+T> = None | Some(value: T)

  /** The outcome of a step that may raise an exception that aborts the whole scan. */
  datatype Result<+T, +E> = Ok(value: T) | Err(error: E)
}
