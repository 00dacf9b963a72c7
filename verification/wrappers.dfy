/** Wrappers used throughout the model: an optional value
    (Python's `None` versus a value) and a result that carries either a value
    or the reason a request failed. */
module Wrappers {

  datatype Option<+T> = None | Some(value: T) {

    /** The value, or `default` when there is none: Python's
        `d.get(k, default)`, which keeps a present value even when it is
        empty. */
    function GetOr(default: T): T {
      match this
      case Some(v) => v
      case None => default
    }
  }

  datatype Result<+T, +E> = Ok(value: T) | Err(error: E)
}
