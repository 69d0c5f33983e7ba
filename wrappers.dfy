/** Optional values and error results, used where the source returns nil,
    a (value, ok) pair or an error. */
module Wrappers {

  datatype Option<+T> = None | Some(value: T)

  datatype Result<+T, +E> = Ok(value: T) | Err(error: E)
}
