/** Option and Result, used where the game returns None or raises. */
module Wrappers {
  datatype Option<T> = None | Some(value: T)

  /** The exceptions the modelled code can raise, by kind. */
  datatype Error = KeyError | ValueError | IndexError | ZeroDivision | AttributeError | TypeError

  datatype Result<T> = Ok(value: T) | Err(error: Error)
}
