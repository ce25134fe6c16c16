/** Option and Result, the two sum types the gateway's Rust code returns. */
module Wrappers {

  /** `Option<T>`: a value that may be absent (the IP of a peer address, for one). */
  datatype Option<+T> = None | Some(value: T) {
    /** The carried value, or `default` when there is none. */
    function GetOr(default: T): (r: T)
      ensures Some? ==> r == value
      ensures None? ==> r == default
    {
      match this
      case Some(v) => v
      case None => default
    }
  }

  /** `Result<T, E>`: the outcome of an operation that can fail with an `E`. */
  datatype Result<+T, +E> = Ok(value: T) | Err(error: E)
}
