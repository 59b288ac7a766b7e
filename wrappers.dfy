/** Optional values and results, standing for the source's `null`/`undefined`
    and for thrown errors. */
module Wrappers {

  datatype Option<+T> = None | Some(value: T)

  /** An operation that either produced a value or failed with a message. */
  datatype Result<+T> = Ok(value: T) | Err(message: string)
}
