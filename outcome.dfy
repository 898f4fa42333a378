/** Failure-carrying values shared by the catalog and the order contract. */
module Outcome {

  /** A value that may be missing: a storage slot, a record property. */
  datatype Option<+T> = None | Some(value: T)

  /** The value of a call, or the reason it aborted. */
  datatype Result<+T, +E> = Ok(value: T) | Err(error: E)
}
