/** Optional values, results, and the exceptions the modelled Python code raises. */
module Wrappers {

  /** A value that may be absent: a dictionary key that is missing, or a Python `None`. */
  datatype Option<+T> = None | Some(value: T) {

    /** The value, or `default` when absent: Python's `d.get(key, default)`. */
    function GetOr(default: T): T {
      match this
      case Some(v) => v
      case None => default
    }
  }

  /** Either a value or the exception that aborts the computation. */
  datatype Result<+T, +E> = Ok(value: T) | Err(error: E)

  /** The exceptions raised by the modelled code paths. */
  datatype Exception =
    | ValueError(message: string)
    | KeyError(key: string)
    /** A model constructor rejected a field (e.g. `None` for a `str` field). */
    | ValidationError(field: string)
}
