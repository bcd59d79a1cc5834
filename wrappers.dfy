/** Optional values and success/failure results shared by every module. */
module Wrappers {

  /** A value that may be absent: JavaScript's `null`/`undefined` versus a value. */
  datatype Option<+T> = None | Some(value: T)

  /** The outcome of an operation that either yields a value or fails with an error. */
  datatype Result<+T, +E> = Ok(value: T) | Err(error: E)

  /**
   * How an awaited remote call settles: it resolves, or it rejects with a thrown value,
   * whose `message` is present when the thrown value is an `Error`.
   */
  datatype Outcome = Resolved | Rejected(message: Option<string>)
}
