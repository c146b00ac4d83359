/** Option and Result types shared by every module of the model. */
module Wrappers {

  /** A value that may be absent: a missing dictionary key or a Python `None`. */
  datatype Option<T> = None | Some(value: T) {
    /** `d.get(key, default)`: the value when present, the default otherwise. */
    function GetOr(default: T): T {
      if Some? then value else default
    }
  }

  /** The outcome of code that may raise: `Crash` stands for a Python exception. */
  datatype Result<T> = Ok(value: T) | Crash(error: string)
}
