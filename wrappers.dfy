/** Option and Result, the two wrapper types the scan-set code returns. */
module Wrappers {

  /** An optional value: a serde field that may be absent, a map lookup that may miss. */
  datatype Option<T> = None | Some(value: T)
  {
    /** The value if present, otherwise `default`. */
    function UnwrapOr(default: T): T
    {
      match this
      case Some(v) => v
      case None => default
    }
  }

  /** The outcome of a fallible conversion: a value or the error that stopped it. */
  datatype Result<T, E> = Ok(value: T) | Err(error: E)
}
