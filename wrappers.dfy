/** Failure-carrying values shared by every module of the model. */
module Wrappers {

  /** A Go value that may be nil: an error, a pointer, an optional field. */
  datatype Option<+T> = None | Some(value: T)

  /** The outcome of a Go call returning `(T, error)` when the caller never
      looks at the value beside a non-nil error. */
  datatype Result<+T> = Ok(value: T) | Err(msg: string)
}
