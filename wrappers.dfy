/** Optional values and error-or-value results, used where the JavaScript
    source has `undefined`, `null` or a thrown exception. */
module Wrappers {

  datatype Option<+T> = None | Some(value: T) {
    function GetOr(default: T): T {
      match this
      case Some(v) => v
      case None => default
    }
  }

  /** The errors of the ingestion pipeline that can escape a function. */
  datatype Error = SourceUnavailable

  datatype Result<+T> = Success(value: T) | Failure(error: Error)
}
