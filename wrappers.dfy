/** Option, Outcome and Result types shared by the weaver model. */
module Wrappers {

  datatype Option<+T> = None | Some(value: T)

  /** Pass/Fail with an error value, for operations that only succeed or fail. */
  datatype Outcome<+E> = Pass | Fail(error: E)

  datatype Result<+R, +E> = Success(value: R) | Failure(error: E) {
    /** Forgets the success value. */
    function ToOutcome(): (o: Outcome<E>)
      ensures o.Pass? <==> Success?
      ensures o.Fail? ==> o.error == error
    {
      match this
      case Success(_) => Pass
      case Failure(e) => Fail(e)
    }
  }
}
