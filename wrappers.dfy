/** Optional values: JavaScript's `undefined`/`null` alternatives. */
module Wrappers {
  datatype Option<+T> = None | Some(value: T) {
    /** The carried value, or `default` when absent (JavaScript's `x ?? default`). */
    function GetOr(default: T): T {
      match this
      case Some(v) => v
      case None => default
    }
  }

  /** A value or the message of the error that was thrown instead. */
  datatype Result<+T> = Success(value: T) | Failure(message: string)
}
