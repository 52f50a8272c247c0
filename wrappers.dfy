/** Optional values and Go-style (value, error) results shared by every module. */
module Wrappers {

  datatype Option<+T> = None | Some(value: T)

  /** A Go call returning `(T, error)`: either a value or the error's message. */
  datatype Result<+T> = Ok(value: T) | Err(msg: string)
}
