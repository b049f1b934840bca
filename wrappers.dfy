/** Optional values: `undefined` on the JavaScript side. */
module Wrappers {

  datatype Option<+T> = None | Some(value: T) {

    /** The `??` operator: the wrapped value, or `default` when absent. */
    function GetOr(default: T): T {
      match this
      case Some(v) => v
      case None => default
    }
  }

  /** The outcome of an operation that can throw: the value, or the error message. */
  datatype Result<+T> = Success(value: T) | Failure(message: string)
}
