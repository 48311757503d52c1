/** Option and Result, and the Python exceptions the modelled code can raise. */
module Wrappers {

  datatype Option<+T> = None | Some(value: T)

  /** The exceptions raised by the bookkeeping layer, by kind. */
  datatype Exception =
    | KeyError(key: string)          // dict lookup of a missing key
    | IndexError                     // list index out of range
    | ValueError(message: string)    // explicit `raise ValueError(...)`, or int() of a malformed string
    | TypeError                      // subscripting None
    | NameError(name: string)        // a variable read before it was ever assigned
    | ZeroDivisionError              // `//` or `%` by zero

  datatype Result<+T> = Ok(value: T) | Err(error: Exception) {
    predicate IsFailure() { Err? }
    function PropagateFailure<U>(): Result<U>
      requires Err?
    {
      Err(error)
    }
    function Extract(): T
      requires Ok?
    {
      value
    }
  }
}
