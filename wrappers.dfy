/** Optional values and results with an error, as used throughout the model. */
module Wrappers {

  /** A value that may be missing: JavaScript's `undefined` (or `null`) is `None`. */
  datatype Option<+T> = None | Some(value: T) {
    /** The value, or `default` when missing (JavaScript's `??`). */
    function GetOr(default: T): T
    {
      if Some? then value else default
    }
  }

  /** The outcome of an operation that may throw. */
  datatype Result<+T, +E> = Ok(value: T) | Err(error: E)
}
