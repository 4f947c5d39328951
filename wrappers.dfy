/** Failure-carrying result types shared by the simulator's modules. */
module Wrappers {

  /** A value that may be absent (Python's None). */
  datatype Option<+T> = None | Some(value: T)

  /** Either a value or the fault that aborted the computation. */
  datatype Result<+T, +E> = Ok(value: T) | Err(error: E)

  /** Success without a value, or the fault that aborted the computation. */
  datatype Outcome<+E> = Pass | Fail(error: E)
}
