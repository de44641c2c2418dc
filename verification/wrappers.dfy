/** Optional and fallible values shared by every module of the model. */
module Wrappers {

  /** A value that may be missing: JavaScript `undefined`/`null` or an absent field. */
  datatype Option<+T> = None | Some(value: T) {

    predicate IsFailure() {
      None?
    }

    function PropagateFailure<U>(): Option<U>
      requires None?
    {
      None
    }

    function Extract(): T
      requires Some?
    {
      value
    }

    /** The wrapped value, or `default` when there is none. */
    function GetOr(default: T): T {
      match this
      case Some(v) => v
      case None => default
    }
  }

  /** The outcome of a storage call: the rows it returned, or the error it raised. */
  datatype Result<+R, +E> = Ok(value: R) | Err(error: E)
}
