/** Option and Result values shared by every module of the model. */
module Wrappers {

  /** The panic of unwrapping a `None`. */
  const UnwrapNone := "called `Option::unwrap()` on a `None` value"

  datatype Option<+T> = None | Some(value: T)
  {
    predicate IsSome() { Some? }

    function UnwrapOr(default: T): (r: T)
      ensures Some? ==> r == value
      ensures None? ==> r == default
    {
      match this
      case Some(v) => v
      case None => default
    }
  }

  datatype Result<+R, +E> = Ok(value: R) | Err(error: E)
  {
    predicate IsOk() { Ok? }

    /** The three members below let `:-` propagate an `Err`, as Rust's `?` does. */
    predicate IsFailure() { Err? }

    function PropagateFailure<U>(): (r: Result<U, E>)
      requires Err?
      ensures r.Err? && r.error == error
    {
      Err(error)
    }

    function Extract(): (r: R)
      requires Ok?
      ensures r == value
    {
      value
    }
  }
}
