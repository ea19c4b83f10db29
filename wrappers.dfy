/** Optional values and results with an error, as the rest of the model uses them. */
module Wrappers {

  /** A value that may be missing: JavaScript's `undefined` for an optional argument or field. */
  datatype Option<+T> = None | Some(value: T) {
    function GetOr(default: T): T {
      match this
      case Some(v) => v
      case None => default
    }
  }

  /** The outcome of a call that may throw: the value, or the message of the error thrown. */
  datatype Result<+T> = Ok(value: T) | Err(message: string)
}
