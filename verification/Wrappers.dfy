/** Failure-carrying results, and the positions of runs, shared by every module. */
module Wrappers {
  datatype Option<+T> = None | Some(value: T)

  datatype Result<+T, +E> = Ok(value: T) | Err(error: E)

  // Marks the position of a run a proof looks at.
  predicate Position(i: int) { true }
}
