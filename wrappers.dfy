/** Optional values and results, standing for JavaScript's `undefined`/`null` and thrown errors. */
module Wrappers {

  /** `None` is an absent (undefined or null) value. */
  datatype Option<+T> = None | Some(value: T) {
    function GetOr(default: T): T {
      match this
      case Some(v) => v
      case None => default
    }
  }

  /** `Err` stands for an exception thrown by the source. */
  datatype Result<+T, +E> = Ok(value: T) | Err(error: E)
}
