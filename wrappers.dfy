/** Optional values and error-carrying results shared by the whole model.
    `None` stands for JavaScript's `undefined`/`null` or Python's `None`,
    `Err` for an exception the source raises or lets escape. */
module Wrappers {

  datatype Option<+T> = None | Some(value: T) {
    function GetOr(default: T): T {
      match this
      case Some(v) => v
      case None => default
    }
  }

  datatype Result<+T, +E> = Ok(value: T) | Err(error: E)
}
