/** Failure-carrying results shared by the other modules. */
module Wrappers {

  datatype Option<+T> = None | Some(value: T)

  /** What a Python call does: it returns a value or raises an exception. */
  datatype Outcome<+T> = Returned(value: T) | Raised(error: PyError)

  /** The exceptions the modelled code can raise. */
  datatype PyError =
    | ValueError(message: string)
    | AttributeError(name: string)
    | TypeError(message: string)
}
