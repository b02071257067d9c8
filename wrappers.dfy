/** Optional values and the outcome of an operation that the source lets raise an exception. */
module Wrappers {

  datatype Option<+T> = None | Some(value: T)

  /** The one exception the modelled code can raise: indexing past the end of a list. */
  datatype Error = IndexOutOfRange

  datatype Result<+T> = Ok(value: T) | Failure(error: Error)
}
