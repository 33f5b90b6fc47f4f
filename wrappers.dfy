/** Optional values and results with an error, used for lookups that may miss
    and for the save handler, which may stop before saving. */
module Wrappers {
  datatype Option<+T> = None | Some(value: T)

  datatype Result<+T, +E> = Ok(value: T) | Err(error: E)
}
