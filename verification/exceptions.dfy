/** The Python exceptions the executor can meet, and the value-or-exception
    results that stand for Python calls that may raise. */
module Exceptions {

  datatype Option<+T> = None | Some(value: T)

  /** The exceptions raised inside `start_application`'s try block. */
  datatype Exception =
    | IndexError                          // list index out of range
    | UnboundLocalError(name: string)     // a local read before it was assigned
    | SaharaAPIException(message: string) // saharaclient's APIException
    | ClusterNotCreatedException          // raised when no cluster id is available

  /** A Python call either returns a value or raises. */
  datatype Result<+T> = Ok(value: T) | Raise(exception: Exception)
}
