// Optional values and fallible results, as the dashboard uses `undefined`,
// `null` and thrown errors.
module Outcomes {

  /** A value that may be absent (`undefined` or `null` in the dashboard). */
  datatype Option<+T> = None | Some(value: T) {
    /** The `??` operator: the value if present, otherwise `default`. */
    function GetOr(default: T): T {
      match this
      case Some(v) => v
      case None => default
    }
  }

  /** The result of an operation that may throw: a fetch, a JSON parse. */
  datatype Result<+T, +E> = Ok(value: T) | Err(error: E)

  /** Why a fetch failed: the network rejected it or the response was not ok. */
  datatype FetchError = NetworkFailure | NotOk(status: int) | BadJson
}
