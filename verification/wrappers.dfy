/** Failure-carrying result types shared by every component of the scraper. */
module Wrappers {

  /** A value that may be absent: a failed console read, a body that is not JSON, a missing key. */
  datatype Option<+T> = None | Some(value: T)

  /** The outcome of an operation that returns either a value or the reason it failed. */
  datatype Result<+T, +E> = Ok(value: T) | Err(error: E)
}
