/** Option and Result, shared by the three models. */
module Wrappers {

  /** A value that may be absent: an optional JSON field, a nullable TypeScript value. */
  datatype Option<+T> = None | Some(value: T) {

    /** The value, or `default` when absent (Go's zero value, a TypeScript fallback). */
    function GetOr(default: T): T {
      match this
      case Some(v) => v
      case None => default
    }
  }

  /** The outcome of an operation that may throw. */
  datatype Result<+T, +E> = Ok(value: T) | Err(error: E)
}
