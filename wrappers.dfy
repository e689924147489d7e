/** Optional values and outcomes, shared by every module of the model. */
module Wrappers {

  /** A value that may be absent: an optional document field or a lookup that found nothing. */
  datatype Option<+T> = None | Some(value: T)

  /** The outcome of a check that either yields a value or reports why it refused. */
  datatype Result<+T, +E> = Success(value: T) | Failure(error: E)
}
