/** Optional values, and results that carry the exception a Python call raises. */
module Wrappers {

  datatype Option<+T> = None | Some(value: T)

  /** One constructor per exception class that the modelled code raises. */
  datatype Error =
    | WorkerNotRegistered
    | LeaseConflict
    | DuplicateGroup
    | UnknownGroup
    | QuorumViolation
    | InvalidValue

  datatype Result<+T> = Ok(value: T) | Raised(error: Error)
}
