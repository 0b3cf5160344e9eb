/** Optional values, used wherever the source reads a key that may be missing
    or holds None, and results that may be an exception instead. */
module Wrappers {

  datatype Option<+T> = None | Some(value: T) {

    /** The value if present, otherwise `default` (Python `d.get(k, default)`). */
    function GetOr(default: T): T {
      match this
      case Some(v) => v
      case None => default
    }
  }

  /** A value or the exception raised while computing it. */
  datatype Result<+T, +E> = Success(value: T) | Failure(error: E)
}
