/** Option and Result, the two sum types the pallet's Rust code returns.
    Result is failure-compatible, so `:-` plays the role of Rust's `?`. */
module Wrappers {

  datatype Option<+T> = None | Some(value: T) {

    /** Rust's `Option::ok_or` */
    function OkOr<E>(error: E): (r: Result<T, E>)
      ensures r.Ok? <==> Some?
      ensures r.Ok? ==> r.value == value
      ensures r.Err? ==> r.error == error
    {
      match this
      case Some(v) => Ok(v)
      case None => Err(error)
    }
  }

  datatype Result<+R, +E> = Ok(value: R) | Err(error: E) {

    predicate IsFailure() {
      Err?
    }

    function PropagateFailure<U>(): Result<U, E>
      requires Err?
    {
      Err(error)
    }

    function Extract(): R
      requires Ok?
    {
      value
    }
  }
}
