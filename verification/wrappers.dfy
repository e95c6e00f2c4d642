/** Failure-carrying values shared by the telemetry model. */
module Wrappers {

  /** A value that may be absent; `None` also stands for JavaScript's `NaN`/`undefined`. */
  datatype Option<+T> = None | Some(value: T)

  /** The outcome of an operation that can fail with an error of type `E`. */
  datatype Result<+T, +E> = Ok(value: T) | Err(error: E)
}
