/** Option values and the two Python exceptions the core can raise. */
module Wrappers {

  datatype Option<T> = None | Some(value: T)

  /** The exceptions a call of the core can end with. */
  datatype PyError =
    | AttributeError  // `.strip()` called on a value that is not a string
    | KeyError        // a dictionary indexed with a key it does not hold

  /** How a Python call ends: it returns a value or raises. */
  datatype Outcome<T> = Done(value: T) | Raised(error: PyError)
}
