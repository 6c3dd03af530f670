/** Failure-carrying values for the controller's `throw`/`catch` control flow. */
module Wrappers {

  /** A value that may be absent: `null` or `undefined` on the JavaScript side. */
  datatype Option<+T> = None | Some(value: T)

  /** The completion of an expression that either yields a value or throws an `Error` with a message. */
  datatype Result<+T> = Ok(value: T) | Thrown(message: string)

  /** The completion of a statement that returns nothing: it ends normally or throws. */
  datatype Completion = Normal | Throw(message: string)
}
