/** Optional values, results and outcomes used throughout the model. */
module Wrappers {

  /** A value that may be missing (a key absent from a decoded message). */
  datatype Option<+T> = None | Some(value: T)

  /** A computation that produced a value or raised an error. */
  datatype Result<+T, +E> = Ok(value: T) | Err(error: E)

  /** A computation run for its effect that passed or raised an error. */
  datatype Outcome<+E> = Pass | Fail(error: E)
}
