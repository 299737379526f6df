/** Small failure-carrying datatypes shared by every module of the model. */
module Wrappers {

  /** A value that may be absent (Go's nil interface or pointer, a missing map entry). */
  datatype Option<T> = None | Some(value: T)

  /** The `(value, error)` pair of a Go function: either a value or an error message. */
  datatype Result<T> = Success(value: T) | Failure(error: string)

  /** The outcome of Go code that may panic: either it returns, or it panics with a message. */
  datatype Exec<T> = Done(value: T) | Panic(message: string)
}
