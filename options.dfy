/** Optional values and results with an error, as used by every screen of the app. */
module Options {

  /** A value that may be absent: a JavaScript `null`/`undefined`, or a parse that failed. */
  datatype Option<+T> = None | Some(value: T) {
    function GetOr(default: T): T {
      match this
      case Some(v) => v
      case None => default
    }
  }

  /** The outcome of a validation chain: the accepted value, or the first error met. */
  datatype Result<+T, +E> = Ok(value: T) | Err(error: E)
}
