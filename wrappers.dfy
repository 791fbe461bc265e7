/** Optional values (a JavaScript value that may be missing) and results with an error path. */
module Wrappers {

  datatype Option<T> = None | Some(value: T)

  datatype Result<T, E> = Ok(value: T) | Err(error: E)
}
