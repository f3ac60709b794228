/** Option and Result, and the exceptions the modelled Python code raises. */
module Wrappers {

  datatype Option<+T> = None | Some(value: T) {
    function GetOr(default: T): T {
      match this
      case Some(v) => v
      case None => default
    }
  }

  /** The Python exceptions that reach the caller of the modelled operations. */
  datatype Error =
    | ValueError(msg: string)
    | AttributeError(msg: string)
    | TypeError(msg: string)
    | IndexError(msg: string)
    | KeyError(key: string)
    | AssertionError(msg: string)
      /** cattrs' ForbiddenExtraKeysError, carrying the unknown keys */
    | ForbiddenExtraKeys(keys: set<string>)
      /** Registry.model's assertion, which lists the registered model keys */
    | ModelNotRegistered(kind: string, known: set<string>)

  datatype Result<+T> = Ok(value: T) | Err(error: Error) {
    predicate IsFailure() {
      Err?
    }

    function PropagateFailure<U>(): Result<U>
      requires Err?
    {
      Err(error)
    }

    function Extract(): T
      requires Ok?
    {
      value
    }
  }
}
