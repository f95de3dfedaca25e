/** Failure-carrying values standing in for Go's `(value, error)` pairs and
    bare `error` results. */
module Wrappers {

  datatype Option<+T> = None | Some(value: T)

  /** A value or the text of the error that replaced it. */
  datatype Result<+T> = Ok(value: T) | Err(msg: string)

  /** A Go `error` result on its own: `Pass` is `nil`. */
  datatype Outcome = Pass | Fail(msg: string)
}
