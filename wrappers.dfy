/** Option and Result, the two failure-carrying shapes the client returns. */
module Wrappers {

  datatype Option<+T> = None | Some(value: T) {
    /** `unwrap_or`: the carried value, or the default when there is none. */
    function GetOr(default: T): T {
      if Some? then value else default
    }

    /** `Option::map`: `f` applied to the carried value, if there is one. */
    function Map<U>(f: T -> U): Option<U> {
      if Some? then Some(f(value)) else None
    }
  }

  datatype Result<+T, +E> = Ok(value: T) | Err(error: E)
}
