/** Failure-carrying datatypes shared by the modules of this model. */
module Wrappers {

  /** A value that may be absent: a missing YAML key or an unset environment variable. */
  datatype Option<+T> = None | Some(value: T)

  /** Either a value or the message of the error that was thrown instead. */
  datatype Result<+R, +E> = Success(value: R) | Failure(error: E)

  /** The settling of a call that produces no value: it resolved, or it rejected with an error. */
  datatype Outcome<+E> = Pass | Fail(error: E)
}
