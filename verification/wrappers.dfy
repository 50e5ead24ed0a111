/** Optional values and results with an explicit failure value. */
module Wrappers {

  datatype Option<+T> = None | Some(value: T) {

    function GetOr(default: T): T {
      match this
      case Some(v) => v
      case None => default
    }
  }

  /** The outcome of one chaincode invocation step: a value, or the failure that aborts it. */
  datatype Result<+T, +E> = Ok(value: T) | Err(error: E)
}
