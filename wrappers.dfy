/** Failure-carrying values used where the modelled code awaits a call that may reject. */
module Wrappers {

  datatype Option<+T> = None | Some(value: T)

  /** A step that either completes or throws with an error. */
  datatype Outcome<+E> = Pass | Fail(error: E)

  /** A call that either resolves with a value or throws with an error. */
  datatype Result<+R, +E> = Success(value: R) | Failure(error: E)
}
