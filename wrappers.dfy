/** Small failure-carrying datatypes shared by the capture engine model. */
module Wrappers {

  /** A value that may be absent: JavaScript's `null` / `undefined` against a present value. */
  datatype Option<T> = None | Some(value: T)

  /** How a call that yields nothing turns out: it returns, or it throws an error with a message. */
  datatype Outcome = Pass | Fail(message: string)

  /** How a call that yields a value turns out: the value, or the message of the error it throws. */
  datatype Result<T> = Success(value: T) | Failure(error: string)
}
