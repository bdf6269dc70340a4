// Optional values and error results shared by every module of the model.
module Wrappers {
  /** A value that may be absent: Python's `None`, a missing DOM node, an SQL NULL. */
  datatype Option<T> = None | Some(value: T)
  {
    function GetOr(default: T): T
    {
      match this
      case None => default
      case Some(v) => v
    }
  }

  /** The outcome of an operation that the source lets raise or fail. */
  datatype Result<T> = Ok(value: T) | Err(error: string)

  /** A request handler either completes with a value or aborts with an HTTP status (403, 404). */
  datatype Http<T> = Done(value: T) | Abort(status: int)
}
