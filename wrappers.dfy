/** Option and Result values shared by the whole model.

    `Result` is the two-variant outcome the client returns instead of raising
    on expected failures: `is_ok`, `is_err`, `unwrap` and `err` of the
    original become `IsOk`, `IsErr`, `Unwrap` and `ErrValue`. */
module Wrappers {

  datatype Option<+T> = None | Some(value: T) {
    /** The wrapped value, or `default` when there is none. */
    function GetOr(default: T): (r: T)
      ensures Some? ==> r == value
      ensures None? ==> r == default
    {
      match this
      case Some(v) => v
      case None => default
    }
  }

  datatype Result<+T, +E> = Ok(value: T) | Err(error: E) {

    /** `is_ok()`: inspects without consuming. */
    predicate IsOk() {
      Ok?
    }

    /** `is_err()`: exactly the opposite of `IsOk`. */
    predicate IsErr()
      ensures IsErr() <==> !IsOk()
    {
      Err?
    }

    /** `unwrap()` on a success. */
    function Unwrap(): (v: T)
      requires IsOk()
      ensures this == Ok(v)
    {
      value
    }

    /** `err()`: the error when there is one. */
    function ErrValue(): (e: Option<E>)
      ensures e.Some? <==> IsErr()
      ensures e.Some? ==> this == Err(e.value)
    {
      match this
      case Ok(_) => None
      case Err(x) => Some(x)
    }
  }
}
