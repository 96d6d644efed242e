/** Optional values and success/failure results, the shapes the model uses for
    Python's `None`-returning lookups and for raised exceptions. */
module Wrappers {

  datatype Option<+T> = None | Some(value: T)

  /** `Failure` stands for an exception that escapes the call. */
  datatype Result<+R, +E> = Success(value: R) | Failure(error: E) {

    /** Applies `f` to a success value and passes a failure through unchanged. */
    function Map<U>(f: R -> U): (r: Result<U, E>)
      ensures r.Success? <==> Success?
      ensures r.Success? ==> r.value == f(value)
      ensures r.Failure? ==> r.error == error
    {
      match this
      case Success(v) => Success(f(v))
      case Failure(e) => Failure(e)
    }
  }
}
