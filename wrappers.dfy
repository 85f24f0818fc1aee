/** Optional values and results with an error message, shared by the modules. */
module Wrappers {
  datatype Option<T> = None | Some(value: T)

  datatype Result<T> = Success(value: T) | Failure(error: string)
}
