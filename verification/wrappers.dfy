/** Optional and failure-carrying values shared by the chat model. */
module Wrappers {

  /** A value that may be absent. */
  datatype Option<+T> = None | Some(value: T)

  /** Either a value or an error; stands in for a Python call that may raise. */
  datatype Result<+T, +E> = Success(value: T) | Failure(error: E)
}
