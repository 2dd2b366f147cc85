/** Option and Result values standing in for Java's nullable references and
    thrown exceptions. */
module Wrappers {

  /** A Java reference that may be null: None is null. */
  datatype Option<+T> = None | Some(value: T)

  /** The outcome of a Java call that either returns a value or throws. */
  datatype Result<+T, +E> = Success(value: T) | Failure(error: E) {

    /** Applies `f` to the error of a failure and keeps a success as it is. */
    function MapFailure<E2>(f: E -> E2): (r: Result<T, E2>)
      ensures r.Success? <==> Success?
      ensures Success? ==> r.value == value
    {
      match this
      case Success(v) => Success(v)
      case Failure(e) => Failure(f(e))
    }
  }
}
