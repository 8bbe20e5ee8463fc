/** Failure-carrying values used throughout the model.

    Go functions in the scanner return a value together with an `error`;
    an error is only ever inspected through its text, so a failure here
    carries that text as a string.
 */
module Wrappers {

  /** A value that may be absent. */
  datatype Option<+T> = None | Some(value: T)

  /** Either a value or the text of the error that prevented it. */
  datatype Result<+T> = Ok(value: T) | Err(msg: string)

  /** The outcome of a Go call that returns only an `error`: nil or not. */
  datatype Outcome = Pass | Fail(msg: string)
}
