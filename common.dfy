/** Small value wrappers shared by the model. */
module Common {

  /** A field that may be absent (TypeScript `undefined`, an optional property). */
  datatype Option<+T> = None | Some(value: T) {
    /** `x ?? d` on an optional value. */
    function GetOr(default: T): T {
      match this
      case Some(v) => v
      case None => default
    }
  }

  /** A column that may hold SQL `null` (distinct from an absent property). */
  datatype Nullable<+T> = Null | NonNull(value: T) {
    /** `x ?? d` on a nullable value. */
    function OrElse(default: T): T {
      match this
      case NonNull(v) => v
      case Null => default
    }

    /** `x ?? undefined`: null becomes an absent value. */
    function ToOption(): (r: Option<T>)
      ensures r.None? <==> Null?
      ensures r.Some? ==> r.value == value
    {
      match this
      case NonNull(v) => Some(v)
      case Null => None
    }
  }

  /** `x ?? null`: an absent value becomes null. */
  function FromOption<T>(o: Option<T>): (r: Nullable<T>)
    ensures r.Null? <==> o.None?
    ensures r.ToOption() == o
  {
    match o
    case Some(v) => NonNull(v)
    case None => Null
  }

  /** A value or the error a call raised. */
  datatype Result<+R, +E> = Success(value: R) | Failure(error: E)
}
