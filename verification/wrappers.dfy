/** Optional values, check outcomes and results with an error, shared by every module of the model. */
module Wrappers {

  /** A value that may be missing (Python's None, an empty recordset). */
  datatype Option<+T> = None | Some(value: T)

  /** The outcome of a check: either it passes or it fails with an error. */
  datatype Outcome<+E> = Pass | Fail(error: E)

  /** A computation that either yields a value or raises an error. */
  datatype Result<+R, +E> = Success(value: R) | Failure(error: E)
}
