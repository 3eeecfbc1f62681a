/** Outcome wrappers for the outcomes of the asynchronous browser and network calls. */
module Wrappers {

  /** A value that may be absent: a callback that never fires, a field that is missing. */
  datatype Option<+T> = None | Some(value: T)

  /** The outcome of a promise: resolved with a value or rejected with an error. */
  datatype Result<+T, +E> = Ok(value: T) | Err(error: E)
}
