/** Optional values and error results, as the source uses `undefined`, `null` and thrown/reported errors. */
module Options {

  datatype Option<+T> = None | Some(value: T) {
    /** The value, or `default` when absent (JavaScript's `x || default` on a possibly missing field). */
    function GetOr(default: T): T {
      match this
      case Some(v) => v
      case None => default
    }
  }

  /** A successful value, or the error message the source shows to the user. */
  datatype Result<+T> = Ok(value: T) | Err(message: string)
}
