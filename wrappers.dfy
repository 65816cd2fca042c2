/** Option and Result, the two failure-carrying datatypes the model uses for
    Python's `None` returns and for raised exceptions. */
module Wrappers {

  datatype Option<+T> = None | Some(value: T) {
    /** `x if x is not None else default` */
    function GetOr(default: T): T {
      match this
      case Some(v) => v
      case None => default
    }
  }

  /** `Raised(msg)` stands for a Python exception escaping the call. */
  datatype Result<+T> = Ok(value: T) | Raised(error: string)
}
