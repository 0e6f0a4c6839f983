/** Optional values, Python exceptions and results that either hold a value
    or the exception the source would raise. */
module Outcomes {

  /** Python's `None` versus a present value. */
  datatype Option<+T> = None | Some(value: T) {

    /** The value, or `default` when absent (`dict.get(key, default)`). */
    function GetOr(default: T): T {
      match this
      case Some(v) => v
      case None => default
    }
  }

  /** The exceptions the modelled code can raise, with Python's message. */
  datatype PyError =
    | ValueError(message: string)
    | TypeError(message: string)
    | AttributeError(message: string)
    | ZeroDivisionError(message: string)
    | OverflowError(message: string)

  /** The message of `float(None)`. */
  const NoneToFloat: string := "float() argument must be a string or a real number, not 'NoneType'"

  /** Either the value a Python expression evaluates to, or the exception it raises. */
  datatype Result<+T> = Ok(value: T) | Err(error: PyError) {

    predicate IsFailure() {
      Err?
    }

    function PropagateFailure<U>(): Result<U>
      requires Err?
    {
      Err(error)
    }

    function Extract(): T
      requires Ok?
    {
      value
    }
  }
}
