/** The small part of Python's runtime vocabulary the model needs: optional
    values (`None`) and results that either carry a value or name the
    exception that was raised instead. */
module Py {

  datatype Option<+T> = None | Some(value: T)

  /** The exceptions the modelled code raises or lets propagate. */
  datatype Exception =
    | ValueError
    | TypeError
    | NameError
    | IndexError
    | AttributeError
    | StopIteration
    | UnboundLocalError
    | ZeroDivisionError
    | FloatingPointError

  datatype Result<+T> = Ok(value: T) | Raise(exc: Exception) {
    predicate IsFailure() { Raise? }

    function PropagateFailure<U>(): Result<U>
      requires Raise?
    {
      Raise(exc)
    }

    function Extract(): T
      requires Ok?
    {
      value
    }
  }

  /** A dynamically typed Python value, as far as the modelled code inspects
      types (`type(b) == bool`, token auto-typing). */
  datatype Value =
    | Bool(b: bool)
    | Int(i: int)
    | Float(x: real)
    | Str(s: string)
    | List(items: seq<Value>)
    | PyNone
}
