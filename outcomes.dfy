/** Optional values and the outcome of an operation that can throw.

    The application throws plain `Error` objects that carry only a message,
    so a failure here is just that message. */
module Outcomes {

  /** A value that may be absent (`undefined` or `null` in the application). */
  datatype Option<+T> = None | Some(value: T)

  /** Either the value an operation resolves to, or the message of the error it throws. */
  datatype Result<+T> = Ok(value: T) | Err(error: string)
}
