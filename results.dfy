/** Optional values and error-carrying results, standing for Go's `nil` and
    its `(value, error)` return pairs. */
module Results {

  datatype Option<+T> = None | Some(value: T)

  datatype Result<+T, +E> = Ok(value: T) | Err(error: E)

  /** The error of a result, if it has one. */
  function ErrorOf<T, E>(r: Result<T, E>): (e: Option<E>)
    ensures e.None? <==> r.Ok?
  {
    match r
    case Ok(_) => None
    case Err(error) => Some(error)
  }
}
