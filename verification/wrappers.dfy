/** Option and Result, standing for Rust's `Option<T>` and `Result<T, E>`. */
module Wrappers {
  datatype Option<+T> = None | Some(value: T)
  {
    /** `Option::unwrap_or`. */
    function GetOr(default: T): T
    {
      match this
      case None => default
      case Some(v) => v
    }
  }

  datatype Result<+T, +E> = Ok(value: T) | Err(error: E)
}
