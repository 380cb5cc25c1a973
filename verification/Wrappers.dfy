/** Optional values and error-carrying results, standing in for Kotlin's nullable
    types and for the early `return null` exits of the modelled code. */
module Wrappers {

  /** A Kotlin `T?`: either no value (`null`) or a value. */
  datatype Option<+T> = None | Some(value: T)

  /** A value, or the reason it could not be produced. */
  datatype Result<+T, +E> = Ok(value: T) | Err(error: E) {

    /** Forgets the reason of a failure, as a function returning `T?` does. */
    function ToOption(): (o: Option<T>)
      ensures o.Some? <==> Ok?
      ensures Ok? ==> o.value == value
    {
      match this
      case Ok(v) => Some(v)
      case Err(_) => None
    }
  }
}
