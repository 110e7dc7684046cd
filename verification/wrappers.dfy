/** Failure-compatible result types shared by every component of the model.

    The Go code returns `(value, error)` pairs; here the error is a closed
    set of kinds, so that a contract can say *which* kind of failure an
    operation reports (not-found versus validation versus invalid status).
    Error messages are free text in the source and are not modelled. */
module Wrappers {

  /** The kinds of error the core distinguishes. */
  datatype Error =
    | NotFound          // errors.ErrNotFound / httperrors.NewNotFoundError
    | NotEmpty          // httperrors.NewNotEmptyError: a required field is empty
    | InputParameter    // httperrors.NewInputParameterError: a value out of range or not allowed
    | InvalidStatus     // httperrors.NewInvalidStatusError
    | InvalidFormat     // a string that does not have the expected shape
    | AlreadyExists     // a duplicate key
    | EmptyId           // the CRI client refuses an empty identifier
    | Rejected          // an external collaborator (runtime, database, driver) failed the call
    | Unsupported       // an operation a driver does not implement
    | Fatal             // the process would log a fatal message and exit

  datatype Option<+T> = None | Some(value: T) {
    predicate IsFailure() { None? }

    function PropagateFailure<U>(): Option<U>
      requires None?
    {
      None
    }

    function Extract(): T
      requires Some?
    {
      value
    }
  }

  datatype Result<+T> = Ok(value: T) | Err(error: Error) {
    predicate IsFailure() { Err? }

    function PropagateFailure<U>(): Result<U>
      requires Err?
    {
      Err(error)
    }

    function Extract(): T
      requires Ok?
    {
      value
    }
  }
}
