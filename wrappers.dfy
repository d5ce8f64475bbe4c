/** Option and Result, used wherever the source returns `undefined` or throws. */
module Wrappers {

  datatype Option<+T> = None | Some(value: T) {
    function GetOr(default: T): T {
      match this
      case Some(v) => v
      case None => default
    }
  }

  /** `Err` stands for a thrown JavaScript error, carrying its message. */
  datatype Result<+T> = Ok(value: T) | Err(error: string)
}
