/** Failure-carrying wrappers shared by the rest of the model. */
module Base {

  /** A value that may be absent: a missing optional property, or a decode that failed. */
  datatype Option<+T> = None | Some(value: T) {

    predicate IsFailure() {
      None?
    }

    function PropagateFailure<U>(): Option<U>
      requires None?
    {
      None
    }

    function Extract(): T
      requires Some?
    {
      value
    }
  }

  /** The settled state of a promise: resolved with a value, or rejected with an error. */
  datatype Result<+T, +E> = Success(value: T) | Failure(error: E)
}
