/** Optional values and results with an error, used for NaN cells and Python exceptions. */
module Wrappers {

  /** `None` stands for a missing value (a NaN cell, a missing description). */
  datatype Option<+T> = None | Some(value: T)

  /** The outcome of an operation that can raise instead of returning. */
  datatype Result<+R, +E> = Ok(value: R) | Err(error: E)
}
