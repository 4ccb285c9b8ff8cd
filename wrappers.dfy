/** Java's nullable references and thrown IllegalArgumentExceptions, as values. */
module Wrappers {

  /** A Java reference that may be null: `None` is null. */
  datatype Option<T> = None | Some(value: T)
  {
    function GetOr(default: T): T
    {
      match this
      case None => default
      case Some(v) => v
    }
  }

  /** The outcome of a service call: a value, or an `IllegalArgumentException` with its message. */
  datatype Result<T> = Success(value: T) | Failure(error: string)
}
