/** Failure-carrying values used throughout the model.

    The converter signals every failure by raising a Python exception; the model
    returns `Err(kind)` instead, where `kind` names the exception class.  Nothing
    in the model depends on exception messages. */
module Wrappers {

  datatype Option<+T> = None | Some(value: T)

  /** The Python exception classes that the modelled code raises. */
  datatype Error =
    | IndexError      // indexing past the end of a list, array or table
    | KeyError        // a missing dictionary key
    | TypeError       // an operation applied to a value of the wrong type
    | ValueError      // a value the code rejects explicitly
    | AttributeError  // a method called on a value that lacks it (`.lower()` on an int)

  datatype Result<+T> = Ok(value: T) | Err(error: Error) {
    predicate IsFailure() { Err? }

    function PropagateFailure<U>(): Result<U>
      requires Err?
    {
      Err(error)
    }

    function Extract(): T
      requires Ok?
    {
      value
    }
  }

  /** The outcome of a step that changes state and returns nothing. */
  datatype Outcome = Pass | Fail(error: Error)
}
