/** Failure-carrying results used across the model. */
module Wrappers {

  datatype Option<+T> = None | Some(value: T)

  /** The outcome of an operation whose Python original may raise: Err carries the message. */
  datatype Result<+T> = Ok(value: T) | Err(message: string)
}
