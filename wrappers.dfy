/** Failure-carrying values shared by every module of the model. */
module Wrappers {

  /** A value that may be absent (`undefined`/`null` in the source). */
  datatype Option<+T> = None | Some(value: T)

  /** The outcome of a fallible step: a value, or the error message a thrown `Error` carries. */
  datatype Result<+R> = Ok(value: R) | Failure(error: string)
}
