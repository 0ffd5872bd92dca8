/** Option and Result, used wherever the source returns None or raises. */
module Wrappers {

  datatype Option<+T> = None | Some(value: T) {
    function GetOr(default: T): T {
      match this
      case Some(v) => v
      case None => default
    }
  }

  /** Err carries the text of the exception the source would raise. */
  datatype Result<+T> = Ok(value: T) | Err(error: string)
}
