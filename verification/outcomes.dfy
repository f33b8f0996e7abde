/** Failure-carrying datatypes shared by the whole model.

    The repository signals every failure with a Python exception. The model keeps
    only what the handlers look at: whether the exception is a `ValueError`
    (main.py's upload handler treats those specially) and its `str(e)` text. */
module Outcomes {

  /** A handle that may be unset (Python `None`). */
  datatype Option<+T> = None | Some(value: T)

  /** The exception classes the handlers distinguish. */
  datatype ExcClass = ValueError | OtherError

  /** A raised exception: its class and the message `str(e)` yields. */
  datatype Exc = Exc(cls: ExcClass, message: string)

  /** A library call that returns a value or raises. */
  datatype Result<+T> = Success(value: T) | Failure(error: Exc)

  /** A library call whose value the model does not need. */
  datatype Outcome = Pass | Fail(error: Exc)
}
