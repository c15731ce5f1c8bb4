/** Optional values (JavaScript's `null`/`undefined`) and the outcome of an operation that may throw. */
module Options {

  datatype Option<+T> = None | Some(value: T) {
    /** The value, or `default` when absent. */
    function GetOr(default: T): T {
      match this
      case Some(v) => v
      case None => default
    }
  }

  /** The value an operation produced, or the message of the `Error` it threw. */
  datatype Result<+R> = Success(value: R) | Failure(error: string)
}
