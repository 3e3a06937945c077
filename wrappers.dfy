/** Option and Result, the two failure-compatible shapes the model uses. */
module Wrappers {

  /** A value that may be absent: an unset configuration key, an omitted argument. */
  datatype Option<+T> = None | Some(value: T) {

    /** The value, or `default` when there is none. */
    function GetOr(default: T): T {
      match this
      case Some(v) => v
      case None => default
    }
  }

  /** Either a planned value or the exception that would abort the run. */
  datatype Result<+T, +E> = Ok(value: T) | Err(error: E)
}
