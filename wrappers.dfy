/** Optional values and the service layer's failures. */
module Wrappers {
  /** A value that may be absent: a Java reference that may be `null`. */
  datatype Option<T> = None | Some(value: T)
  {
    /** The value, or `default` when it is absent (`x != null ? x : default`). */
    function GetOr(default: T): T
    {
      match this
      case None => default
      case Some(v) => v
    }
  }

  /** The exceptions the services throw. */
  datatype Error =
    | NotFound        // EntityNotFoundException
    | AlreadyExists   // IllegalArgumentException for a month that already has a record
    | NullPointer     // NullPointerException from arithmetic on a null amount

  /** The result of an operation that may throw. */
  datatype Result<T> = Ok(value: T) | Err(error: Error)
}
