/** Optional values, standing for JavaScript's `undefined`/`null`. */

module Wrappers {
  datatype Option<+T> = None | Some(value: T)

  /** The value of a call that either returns or throws. */
  datatype Result<+T, +E> = Ok(value: T) | Err(error: E)
}
