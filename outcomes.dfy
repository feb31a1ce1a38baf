/** Values that stand for Python's exceptions and for the outcomes of calls
    that may raise one. A call that returns normally yields `Ok`, a call that
    raises yields `Raise` carrying the exception. */
module Outcomes {

  /** The exception classes the code distinguishes in its `except` clauses.
      `msg` is what `str(e)` gives for the exception. */
  datatype Exception =
    | ValueError(msg: string)
    | GitlabGetError(msg: string)  // gitlab.exceptions.GitlabGetError
    | OtherError(msg: string)      // any other exception (list, auth or transport errors, ...)

  /** `str(e)` */
  function Str(e: Exception): string
  {
    e.msg
  }

  /** `str(x)` for a variable that holds either an exception or `None`. */
  function StrOrNone(e: Option<Exception>): (r: string)
    ensures e.None? ==> r == "None"
  {
    match e
    case None => "None"
    case Some(x) => Str(x)
  }

  datatype Option<+T> = None | Some(value: T)

  /** The outcome of a call that returns a `T` or raises. */
  datatype Result<+T> = Ok(value: T) | Raise(exc: Exception)

  /** The outcome of a call whose return value is not used. */
  datatype Outcome = Pass | Fail(exc: Exception)
}
