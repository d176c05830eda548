/** Option and Result values used for the source's "None" returns and raised errors. */
module Wrappers {

  datatype Option<+T> = None | Some(value: T) {
    function GetOr(default: T): T {
      match this
      case Some(v) => v
      case None => default
    }
  }

  datatype Result<+R, +E> = Ok(value: R) | Err(error: E) {
    predicate IsFailure() { Err? }

    function PropagateFailure<U>(): Result<U, E>
      requires Err?
    {
      Err(error)
    }

    function Extract(): R
      requires Ok?
    {
      value
    }
  }

  /** A Python exception that the source lets propagate to its caller. */
  datatype PyError = ValueError | KeyError | TypeError

  /** An HTTP failure of the admin panel: a status code and a detail message. */
  datatype HttpError = HttpError(status: int, detail: string)
}
