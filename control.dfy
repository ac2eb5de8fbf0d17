/**
 * The small Option and Either values the library's API hands around.
 * Only the operations the library itself relies on are given.
 */
module Control {

  /** An optional value: either nothing, or exactly one value. */
  datatype Option<T> = None | Some(value: T) {

    predicate IsDefined() {
      Some?
    }

    predicate IsEmpty() {
      None?
    }

    /** The value when present, `other` otherwise. */
    function GetOrElse(other: T): (r: T)
      ensures Some? ==> r == value
      ensures None? ==> r == other
    {
      match this
      case Some(v) => v
      case None => other
    }

    /** Applies `f` to the value when there is one. */
    function Map<U>(f: T -> U): (r: Option<U>)
      ensures r.Some? <==> Some?
      ensures r.Some? ==> r.value == f(value)
    {
      match this
      case Some(v) => Some(f(v))
      case None => None
    }

    /** Chains a computation that may itself produce nothing. */
    function FlatMap<U>(f: T -> Option<U>): (r: Option<U>)
      ensures None? ==> r.None?
      ensures Some? ==> r == f(value)
    {
      match this
      case Some(v) => f(v)
      case None => None
    }

    /** This option when it holds a value, `other` otherwise. */
    function OrElse(other: Option<T>): (r: Option<T>)
      ensures Some? ==> r == this
      ensures None? ==> r == other
    {
      if Some? then this else other
    }
  }

  /** A value of one of two types: `Left` or `Right`. */
  datatype Either<L, R> = Left(left: L) | Right(right: R) {

    /** Right-biased projection: the right value, if any. */
    function ToOption(): (r: Option<R>)
      ensures r.Some? <==> Right?
      ensures r.Some? ==> r.value == right
    {
      match this
      case Left(_) => None
      case Right(v) => Some(v)
    }

    /** Eliminates an Either by giving one function per case. */
    function Fold<C>(onLeft: L -> C, onRight: R -> C): (r: C)
      ensures Left? ==> r == onLeft(left)
      ensures Right? ==> r == onRight(right)
    {
      match this
      case Left(l) => onLeft(l)
      case Right(v) => onRight(v)
    }
  }
}
