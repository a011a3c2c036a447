/** Optional values and results: a lookup that may find nothing, an operation that may throw. */
module Wrappers {

  datatype Option<+T> = None | Some(value: T)

  /** `Err` stands for an exception thrown out of an async service method. */
  datatype Result<+T, +E> = Ok(value: T) | Err(error: E)
}
