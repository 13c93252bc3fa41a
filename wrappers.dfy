/** Optional values and handler results shared by every module. */
module Wrappers {

  /** A value that may be absent: a missing request field, a SQL NULL, a `null` in the client. */
  datatype Option<+T> = None | Some(value: T)

  /** What a handler answers: the JSON payload, or an error message (a 400, or the engine's error as a 500). */
  datatype Result<+R> = Ok(value: R) | Err(message: string)
}
