/** Optional values and results with an error, shared by every module of the model. */
module Wrappers {

  datatype Option<+T> = None | Some(value: T) {
    function GetOr(default: T): T {
      match this
      case Some(v) => v
      case None => default
    }

    predicate IsFailure() {
      None?
    }

    function PropagateFailure<U>(): Option<U>
      requires None?
    {
      None
    }

    function Extract(): T
      requires Some?
    {
      value
    }
  }

  datatype Result<+R, +E> = Ok(value: R) | Err(error: E) {
    predicate IsFailure() {
      Err?
    }

    function PropagateFailure<U>(): Result<U, E>
      requires Err?
    {
      Err(error)
    }

    function Extract(): R
      requires Ok?
    {
      value
    }
  }

  /** A JSON-ish field as a request or a reply carries it: missing, explicitly null, or a value.
      Python's dict.get(key, default) and pydantic defaults treat the first two differently. */
  datatype Field<+T> = Absent | Null | Given(value: T) {
    /** Python `d.get(key)`: None when absent or null. */
    function Get(): Option<T> {
      match this
      case Given(v) => Some(v)
      case _ => None
    }
  }
}
