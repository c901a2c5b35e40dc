/** Optional values and fallible results. */
module Options {
  datatype Option<+T> = None | Some(value: T)
  datatype Result<+T, +E> = Ok(value: T) | Err(error: E)
}
