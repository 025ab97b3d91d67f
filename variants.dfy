/** The hand-rolled `Option<T>` and `Result<T, E>` of rust/sample2.rs.
    A `panic!` inside `unwrap` is a programming error, so `Unwrap` carries
    the variant it needs as a precondition. */
module Variants {

  /** A value that may be absent. */
  datatype Option<T> = Some(value: T) | None {

    /** `is_some`: true exactly for `Some`, and the opposite of `IsNone`. */
    predicate IsSome()
      ensures IsSome() <==> Some?
      ensures IsSome() != IsNone()
    {
      match this
      case Some(_) => true
      case None => false
    }

    /** `is_none`: true exactly for `None`. */
    predicate IsNone()
      ensures IsNone() <==> this == None
    {
      match this
      case Some(_) => false
      case None => true
    }

    /** `unwrap`: gives back the value that was wrapped. */
    function Unwrap(): (v: T)
      requires IsSome()
      ensures Some(v) == this
    {
      match this
      case Some(v) => v
    }

    /** `map`: applies `f` under `Some` and keeps `None` as it is. */
    function Map<U>(f: T -> U): (r: Option<U>)
      ensures r.IsSome() == IsSome()
      ensures IsSome() ==> r.Unwrap() == f(Unwrap())
    {
      match this
      case Some(v) => Some(f(v))
      case None => None
    }
  }

  /** A success value or an error value. */
  datatype Result<T, E> = Ok(value: T) | Err(error: E) {

    /** `is_ok`: true exactly for `Ok`, and the opposite of `IsErr`. */
    predicate IsOk()
      ensures IsOk() <==> Ok?
      ensures IsOk() != IsErr()
    {
      match this
      case Ok(_) => true
      case Err(_) => false
    }

    /** `is_err`: true exactly for `Err`. */
    predicate IsErr()
      ensures IsErr() <==> Err?
    {
      match this
      case Ok(_) => false
      case Err(_) => true
    }

    /** `unwrap`: gives back the success value. */
    function Unwrap(): (v: T)
      requires IsOk()
      ensures Ok(v) == this
    {
      match this
      case Ok(v) => v
    }
  }

  /** `map` is the identity on `None`, whatever the function. */
  lemma MapNone<T, U>(f: T -> U)
    ensures Option<T>.None.Map(f) == Option<U>.None
  {
  }

  /** `Some(x).map(f) == Some(f(x))` and `Some(x).unwrap() == x`. */
  lemma SomeLaws<T, U>(x: T, f: T -> U)
    ensures Some(x).Unwrap() == x
    ensures Some(x).Map(f) == Some(f(x))
  {
  }

  /** `map` respects identity and composition (the functor laws). */
  lemma MapFunctor<T, U, V>(o: Option<T>, f: T -> U, g: U -> V)
    ensures o.Map(x => x) == o
    ensures o.Map(f).Map(g) == o.Map(x => g(f(x)))
  {
  }
}
