/** Optional values and results, used for channels of capacity one, nullable pointers and error returns. */
module Wrappers {
  datatype Option<+T> = None | Some(value: T)

  datatype Result<+T> = Ok(value: T) | Err(message: string)
}
