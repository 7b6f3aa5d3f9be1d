/** Optional values and results, the shapes the JavaScript code expresses with
    `undefined` and with thrown errors. */
module Wrappers {

  /** A value that may be absent (`undefined` in the source). */
  datatype Option<+T> = None | Some(value: T) {

    /** The value, or `default` when absent. */
    function GetOr(default: T): T {
      match this
      case Some(v) => v
      case None => default
    }
  }

  /** The outcome of a step that either produces a value or reports an error. */
  datatype Result<+R, +E> = Ok(value: R) | Err(error: E)
}
