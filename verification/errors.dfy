/** The pipeline's failure vocabulary.  Every `try ... except Exception as e:
    raise NetworkSecurityException(e, sys)` in the pipeline code becomes one `Wrapped`
    layer around the error that was caught, so the nesting depth of an error
    records how many stage boundaries it crossed. */
module Errors {

  /** The exception classes the modelled code can raise. */
  datatype Error =
    | KeyError(key: string)          // missing dict key or DataFrame column
    | ValueError(message: string)    // max() of an empty report, shape mismatch, None path
    | IndexError(message: string)    // arr[:, -1] on an array with no columns
    | FileNotFound(path: string)     // a read from a path nothing was written to
    | SourceUnavailable(message: string) // the document store could not be read
    | Wrapped(cause: Error)          // NetworkSecurityException(e, sys)

  /** Python's `x or None` for a single optional value. */
  datatype Option<+T> = None | Some(value: T)

  /** A value, or the exception that was raised instead; usable with `:-`. */
  datatype Result<+T> = Ok(value: T) | Err(error: Error) {

    predicate IsFailure() {
      Err?
    }

    function PropagateFailure<U>(): Result<U>
      requires Err?
    {
      Err(error)
    }

    function Extract(): T
      requires Ok?
    {
      value
    }
  }

  /** The effect of one `except Exception as e: raise NetworkSecurityException(e, sys)`. */
  function Wrap<T>(r: Result<T>): (w: Result<T>)
    ensures w.Ok? <==> r.Ok?
    ensures r.Ok? ==> w.value == r.value
    ensures r.Err? ==> w.error == Wrapped(r.error)
  {
    match r
    case Ok(_) => r
    case Err(e) => Err(Wrapped(e))
  }
}
