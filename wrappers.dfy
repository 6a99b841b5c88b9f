/** Option and Result values for the operations whose source returns `null`
    or can fail. */
module Wrappers {

  /** `None` stands for the source's `null` (and for an omitted optional argument). */
  datatype Option<+T> = None | Some(value: T) {
    /** The value, or `default` when absent: JavaScript's `x ?? default`, and
        the rule a spread `{ ...old, ...patch }` applies to each key. */
    function GetOr(default: T): (r: T)
      ensures Some? ==> r == value
      ensures None? ==> r == default
    {
      match this
      case Some(v) => v
      case None => default
    }
  }

  datatype Result<+R, +E> = Success(value: R) | Failure(error: E) {
    /** Forgets the error: the view a caller of a null-returning function gets. */
    function ToOption(): (o: Option<R>)
      ensures o.Some? <==> Success?
      ensures Success? ==> o.value == value
    {
      match this
      case Success(v) => Some(v)
      case Failure(_) => None
    }
  }
}
