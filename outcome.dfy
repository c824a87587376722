/** Failure-carrying results shared by the weight-goal metrics and the nutrition ledger. */
module Outcome {

  /** A value that may be absent. */
  datatype Option<T> = None | Some(value: T)

  /** A computed value, or the error the computation raised. */
  datatype Result<T, E> = Ok(value: T) | Err(error: E)
}
