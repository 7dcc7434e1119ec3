/** The exceptions the engine raises and the result type its operations return. */
module Errors {
  import opened Values

  /** The three revisions of the library that this model covers. */
  datatype Revision =
    | Current   // src/flexmock/_api.py
    | Earlier   // src/flexmock/api.py
    | Oldest    // flexmock/api.py

  /** The library's own exception classes. */
  datatype ErrorKind =
    | FlexmockError
    | MockBuiltinError
    | MethodSignatureError
    | ExceptionClassError
    | ExceptionMessageError
    | StateError
    | MethodCallError
    | CallOrderError

  /** Every library exception except MockBuiltinError derives from FlexmockError. */
  predicate IsFlexmockError(k: ErrorKind)
  {
    k != MockBuiltinError
  }

  function KindName(k: ErrorKind): string
  {
    match k
    case FlexmockError => "FlexmockError"
    case MockBuiltinError => "MockBuiltinError"
    case MethodSignatureError => "MethodSignatureError"
    case ExceptionClassError => "ExceptionClassError"
    case ExceptionMessageError => "ExceptionMessageError"
    case StateError => "StateError"
    case MethodCallError => "MethodCallError"
    case CallOrderError => "CallOrderError"
  }

  /** An exception leaving an operation. */
  datatype Error =
    | Flex(kind: ErrorKind, message: string)
      // raised by the library
    | Configured(raisable: Raisable, args: ArgSet)
      // raised on a call because `and_raise` configured it
    | Foreign(cls: string, message: string)
      // raised by host code: a TypeError, a KeyError, or the spied original

  datatype Result<T> = Ok(value: T) | Err(error: Error)
  {
    predicate IsFailure() { Err? }

    function PropagateFailure<U>(): Result<U>
      requires Err?
    {
      Err(error)
    }

    function Extract(): T
      requires Ok?
    {
      value
    }
  }

  function Fail<T>(kind: ErrorKind, message: string): Result<T>
  {
    Err(Flex(kind, message))
  }
}
