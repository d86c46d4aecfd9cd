/** Failure-compatible wrappers: the outcome of a contract read and of a parse. */
module Outcomes {

  /** The outcome of an awaited contract call: a value, or the exception it threw. */
  datatype Result<+T> = Ok(value: T) | Failed

  datatype Option<+T> = None | Some(value: T)
}
