/** Value wrappers shared by every module of the model: optional values
    (Go's nil pointers), Go `error` results and raw bytes. */
module Outcomes {

  /** A value that may be absent, as a Go pointer that may be nil. */
  datatype Option<+T> = None | Some(value: T)

  /** A Go `(T, error)` pair in which exactly one half is meaningful. */
  datatype Result<+T> = Ok(value: T) | Err(message: string)

  /** A Go `error` value: nil, or an error known by its message. */
  datatype Outcome = Pass | Fail(message: string)

  newtype byte = x: int | 0 <= x < 256
}
