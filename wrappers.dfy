/** Optional values: JavaScript's `undefined` (or a missing key) against a present value. */
module Wrappers {

  datatype Option<+T> = None | Some(value: T) {

    /** The value, or `default` when absent. */
    function GetOr(default: T): T {
      match this
      case Some(v) => v
      case None => default
    }
  }

  /** Either a value or the text of the alert / exception the source raises instead. */
  datatype Result<+T> = Ok(value: T) | Err(message: string)
}
