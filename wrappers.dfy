/** Optional values and error-carrying results, the Dafny form of Go's nil-able
    references and (value, error) pairs. */
module Wrappers {

  datatype Option<+T> = None | Some(value: T)

  /** A Go `(T, error)` return: either a value or the error's message. */
  datatype Result<+T> = Ok(value: T) | Err(msg: string)
}
