/** Option, outcome and result datatypes shared by the other modules. */
module Wrappers {

  /** A value that may be absent: the `undefined` / `null` a lookup resolves to. */
  datatype Option<+T> = None | Some(value: T)

  /** The outcome of an operation that returns nothing on success and throws `error` otherwise. */
  datatype Outcome<+E> = Pass | Fail(error: E)

  /** A value or the error that was thrown instead. */
  datatype Result<+R, +E> = Success(value: R) | Failure(error: E)
}
