/** Failure-carrying values shared by every module: Go's nil pointers and
    its (value, error) return pairs. */
module Wrappers {

  /** A Go pointer or interface value: None stands for nil. */
  datatype Option<+T> = None | Some(value: T)

  /** A Go `error` carries a message; errors.New(msg) builds one. */
  type Error = string

  /** Go's `(T, error)` return pair: exactly one of the two is meaningful. */
  datatype Result<+T> = Ok(value: T) | Err(error: Error)
}
