/** Failure-carrying result types shared by the client and server models. */
module Outcomes {

  datatype Option<+T> = None | Some(value: T)

  /** The settled value of a Promise: resolved with a value, or rejected with an error. */
  datatype Result<+T, +E> = Ok(value: T) | Err(error: E)
}
