/** Optional values and results that carry either a value or an error. */
module Wrappers {

  datatype Option<+T> = None | Some(value: T)

  datatype Result<+T, +E> = Ok(value: T) | Err(error: E) {

    predicate IsFailure() { Err? }

    function PropagateFailure<U>(): Result<U, E>
      requires Err?
    {
      Err(error)
    }

    function Extract(): T
      requires Ok?
    {
      value
    }
  }

  /** The error of a failed result. */
  function ErrorOf<T, E>(r: Result<T, E>): Option<E> {
    match r case Ok(_) => None case Err(e) => Some(e)
  }

  function ValueOr<T, E>(r: Result<T, E>, default: T): T {
    match r case Ok(v) => v case Err(_) => default
  }
}
