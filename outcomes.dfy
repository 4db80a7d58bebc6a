/** Optional values, and results that either carry a value or the Python
    exception the modelled code would raise. */
module Outcomes {

  datatype Option<+T> = None | Some(value: T)

  /** The exceptions the modelled code can raise, named as Python names them. */
  datatype Error =
    | IndexError                   // a sequence index or boolean mask out of range
    | TypeError                    // an operation on operands of the wrong type
    | KeyError(key: string)        // `df[name]` on a missing column, `os.environ[name]` when unset
    | UnboundLocalError(name: string)  // a local variable read before any assignment
    | FileNotFoundError(path: string)
    | FileExistsError(path: string)
    | ValueError                   // `float(text)` on text that is not a number; nilearn handed a missing path

  /** Failure-compatible result: `:-` propagates the first exception. */
  datatype Result<+T> = Ok(value: T) | Err(error: Error) {

    predicate IsFailure() {
      Err?
    }

    function PropagateFailure<U>(): Result<U>
      requires Err?
    {
      Err(error)
    }

    function Extract(): T
      requires Ok?
    {
      value
    }
  }
}
