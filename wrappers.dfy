/**
 * Option and Result: the absent value (Python's None) and the raised
 * exception of the modelled code become values the caller inspects.
 */
module Wrappers {

  datatype Option<T> = None | Some(value: T)
  {
    function UnwrapOr(default: T): T
    {
      match this
      case Some(v) => v
      case None => default
    }
  }

  datatype Result<T, E> = Success(value: T) | Failure(error: E)
}
