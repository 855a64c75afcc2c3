/** Optional values and error-carrying results, used in place of Go's `(value, error)`
    pairs, "not found" replies and JavaScript's `null`/`undefined`. */
module Wrappers {

  datatype Option<T> = None | Some(value: T)

  datatype Result<T, E> = Ok(value: T) | Err(error: E)
}
