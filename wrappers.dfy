/** Failure-compatible wrapper types shared by every module of the model. */
module Wrappers {

  /** A value that may be absent (Python's `Optional[T]` / `None`). */
  datatype Option<+T> = None | Some(value: T) {
    predicate IsFailure() { None? }

    function PropagateFailure<U>(): Option<U>
      requires None?
    {
      None
    }

    function Extract(): T
      requires Some?
    {
      value
    }

    function GetOr(default: T): T {
      match this
      case Some(v) => v
      case None => default
    }
  }

  /** A success value, or a failure message (a validation error, an unparsable input). */
  datatype Result<+R> = Ok(value: R) | Failure(error: string) {
    predicate IsFailure() { Failure? }

    function PropagateFailure<U>(): Result<U>
      requires Failure?
    {
      Failure(error)
    }

    function Extract(): R
      requires Ok?
    {
      value
    }

    function ToOption(): Option<R> {
      match this
      case Ok(v) => Some(v)
      case Failure(_) => None
    }
  }

  /** The outcome of a Python call: it returns a value, or it raises an exception
      carrying a message. Used for calls into code the model cannot see (the data
      agent, the knowledge agent) and for operations whose exceptions escape. */
  datatype Call<+T> = Returned(value: T) | Raised(message: string)
}
