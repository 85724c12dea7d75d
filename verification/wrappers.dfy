/** Failure-carrying datatypes used for every callback of the pipeline: a
    thrown exception becomes a `Fail`, a normal return an `Ok`. */
module Wrappers {

  /** A value that may be absent; here `None` plays the part of a
      JavaScript `null` or `undefined`. */
  datatype Option<+T> = None | Some(value: T)

  /** Either a value or the error that was raised instead of it. */
  datatype Result<+T, +E> = Ok(value: T) | Fail(error: E) {

    /** The raised error, if any. */
    function ErrorOrNone(): (r: Option<E>)
      ensures r.Some? <==> Fail?
      ensures Fail? ==> r.value == error
    {
      match this
      case Ok(_) => None
      case Fail(e) => Some(e)
    }
  }
}
