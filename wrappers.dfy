/** Option and Result types shared by every module of the model. */
module Wrappers {
  datatype Option<T> = None | Some(value: T)

  /** An exception raised by the modelled code, named by its Python class. */
  datatype Error =
    | AssertionError
    | IndexError
    | ValueError
    | TypeError
    | ZeroDivisionError
    | OverflowError
    | ArithmeticError
    | StopIteration
    | AttributeError
    | KeyError
    | DomainError(name: string)

  datatype Result<T> = Ok(value: T) | Err(error: Error)
  {
    predicate IsOk() { Ok? }
  }
}
