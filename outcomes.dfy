/** Optional values and the outcome of a store call that may fail. */
module Outcomes {

  /** A value that may be missing (`undefined` in the source). */
  datatype Option<+T> = None | Some(value: T)

  /** The one failure the product store signals: no record has the identifier. */
  datatype Error = NotFound

  /** What an awaited store call yields: a value, or the error it throws. */
  datatype Result<+T> = Ok(value: T) | Err(error: Error)
}
