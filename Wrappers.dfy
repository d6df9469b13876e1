/** Optional values and results shared by the front end and the service. */
module Wrappers {

  /** An absent or present value; for a JavaScript property, `None` is `undefined`. */
  datatype Option<+T> = None | Some(value: T)

  /** The outcome of an operation that may raise: a value, or the error it raised. */
  datatype Result<+T, +E> = Success(value: T) | Failure(error: E)
}
