/** Optional values (Go's nil pointers) and results carrying a Go error message. */
module Wrappers {

  /** A value that may be absent, as a Go pointer that may be nil. */
  datatype Option<+T> = None | Some(value: T) {
    function GetOr(default: T): T {
      match this
      case Some(v) => v
      case None => default
    }
  }

  /** The result of a Go function returning `(value, error)`. */
  datatype Result<+T> = Ok(value: T) | Err(error: string)
}
