/** Option, Result and Outcome, the failure-carrying shapes the rest of the model returns. */
module Wrappers {

  /** A value that may be missing: the model's reading of a JavaScript parameter left `undefined`. */
  datatype Option<+T> = None | Some(value: T)

  /** The outcome of an operation that either returns a value or throws an Error with a message. */
  datatype Result<+T> = Ok(value: T) | Err(message: string)

  /** The outcome of an operation that returns nothing or throws an Error with a message. */
  datatype Outcome = Pass | Fail(message: string)
}
