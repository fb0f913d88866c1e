/** The ways the record operations fail, and the wrappers that carry a value or a failure.
    Each error stands for an exception that records.py lets escape to its caller. */
module Outcomes {
  import opened Paths

  datatype Error =
    | NotAnObject(key: string)      // TypeError: subscripting a value that is not a dict with `key`
    | MissingKey(key: string)       // KeyError: a dict without `key`
    | NotAList                      // the file listing is not a list, so the loop or ls[0] fails
    | EmptyList                     // IndexError: ls[0] of an empty list
    | NotAMapping                   // TypeError: T(**x) where x is not a dict
    | InvalidFieldNames             // ValueError: namedtuple refuses a field name
    | FieldsDiffer(index: nat)      // TypeError: T(**dic) where dic's keys are not the fields of T
    | NoAttribute(name: string)     // AttributeError: a namedtuple without that field
    | NotFound(message: string)     // ValueError raised by find
    | LinkNotAPath                  // TypeError: Path() of a link that is not a string
    | CannotOpen(target: Path)      // OSError from open(target, 'wb')
    | Transport                     // an exception from the streamed GET

  datatype Option<+T> = None | Some(value: T)

  datatype Result<+T> = Success(value: T) | Failure(error: Error) {
    predicate IsFailure() {
      Failure?
    }

    function PropagateFailure<U>(): Result<U>
      requires Failure?
    {
      Failure(error)
    }

    function Extract(): T
      requires Success?
    {
      value
    }
  }

  /** The result of an operation that returns None in Python. */
  datatype Outcome = Pass | Fail(error: Error)
}
