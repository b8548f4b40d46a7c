/** Optional values and error-carrying results used throughout the model. */
module Wrappers {

  /** An optional value. Where the card reads a number with `parseFloat`,
      `None` stands for NaN (or for a setting that is not there at all). */
  datatype Option<+T> = None | Some(value: T) {

    /** Returns the value inside `Some`, or `default` when there is none. */
    function GetOr(default: T): T {
      match this
      case Some(v) => v
      case None => default
    }
  }

  /** Either a value or an error, as `setConfig` either accepts or throws. */
  datatype Result<+R, +E> = Success(value: R) | Failure(error: E)
}
