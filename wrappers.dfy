/** Plain option, result and parse-outcome wrappers shared by every module of the model. */
module Wrappers {

  /** A value that may be absent (JavaScript's `null` / `undefined`). */
  datatype Option<+T> = None | Some(value: T)

  /** The outcome of an asynchronous thunk: fulfilled with a value or rejected with a message. */
  datatype Result<+R, +E> = Success(value: R) | Failure(error: E)

  /**
   * What `JSON.parse` makes of a stored string: a value, the literal `null`,
   * or a `SyntaxError` carrying its message. JSON parsing itself is not modelled;
   * callers receive this verdict as an oracle.
   */
  datatype Parsed<+T> = Value(value: T) | Null | Malformed(message: string)
}
