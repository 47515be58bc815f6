/** Optional values and results with an error, as used throughout the model. */
module Wrappers {

  /** A value that may be absent: an empty Many2one field, a search that found nothing. */
  datatype Option<+T> = None | Some(value: T)

  /** The outcome of an operation that either returns a value or raises an error. */
  datatype Result<+T, +E> = Success(value: T) | Failure(error: E)
}
