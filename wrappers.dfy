/** Optional values and the abstract outcome of one HTTP call. */
module Wrappers {

  datatype Option<+T> = None | Some(value: T) {
    function GetOr(default: T): T {
      match this
      case Some(v) => v
      case None => default
    }
  }

  /** What an awaited axios call produced: the response body, or a rejection.
      `Err(Some(s))` is an error response with HTTP status `s`; `Err(None)` is a
      failure without any response (network error, thrown exception). */
  datatype Response<+T> = Ok(body: T) | Err(status: Option<int>)

  datatype Unit = Unit
}
