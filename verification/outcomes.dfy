/** Failure-carrying values: a field that may be absent, and a run that may crash. */
module Outcomes {

  /** A value that may be missing (Python's `None`). */
  datatype Option<+T> = None | Some(value: T)

  /** The outcome of a whole run: a value, or the exception that escaped it. */
  datatype Result<+R, +E> = Success(value: R) | Failure(error: E)
}
