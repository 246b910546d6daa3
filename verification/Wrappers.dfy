/** Optional values, and results that carry an error. */
module Wrappers {
  import opened Errors

  datatype Option<+T> = None | Some(value: T)

  datatype Result<+T> = Ok(value: T) | Err(error: Error)
}
