/**
 * The application's `Result` type: a success value `Ok` or an error `Err`,
 * with the combinators of `app/domain/result.py`.
 */
module DomainResult {

  /** What a call does: returns a value, or raises `ValueError`. */
  datatype Outcome<+T> = Returns(value: T) | RaisesValueError

  datatype Result<+T, +E> = Ok(value: T) | Err(error: E) {

    predicate IsOk() { Ok? }

    predicate IsErr() { Err? }

    // The failure-compatible members that let `:-` propagate an error.

    predicate IsFailure() { Err? }

    function PropagateFailure<U>(): Result<U, E>
      requires Err?
    {
      Err(error)
    }

    function Extract(): T
      requires Ok?
    {
      value
    }

    /** The success value; raising `ValueError` on an error. */
    function Unwrap(): (r: Outcome<T>)
      ensures r.Returns? <==> IsOk()
      ensures r.Returns? ==> this == Ok(r.value)
    {
      match this
      case Ok(v) => Returns(v)
      case Err(_) => RaisesValueError
    }

    /** The error value; raising `ValueError` on a success. */
    function UnwrapErr(): (r: Outcome<E>)
      ensures r.Returns? <==> IsErr()
      ensures r.Returns? ==> this == Err(r.value)
    {
      match this
      case Ok(_) => RaisesValueError
      case Err(e) => Returns(e)
    }

    /** The success value, or `default` on an error. */
    function UnwrapOr(default: T): (v: T)
      ensures IsOk() ==> this == Ok(v)
      ensures IsErr() ==> v == default
    {
      match this
      case Ok(v) => v
      case Err(_) => default
    }

    function Map<U>(f: T -> U): (r: Result<U, E>)
      ensures r.IsOk() <==> IsOk()
      ensures IsOk() ==> r == Ok(f(value))
      ensures IsErr() ==> r == Err(error)
    {
      match this
      case Ok(v) => Ok(f(v))
      case Err(e) => Err(e)
    }

    function MapErr<F>(f: E -> F): (r: Result<T, F>)
      ensures r.IsOk() <==> IsOk()
      ensures IsOk() ==> r == Ok(value)
      ensures IsErr() ==> r == Err(f(error))
    {
      match this
      case Ok(v) => Ok(v)
      case Err(e) => Err(f(e))
    }
  }

  /** `match_result`: applies `onOk` or `onErr` to whichever value is held. */
  function MatchResult<T, E, U>(r: Result<T, E>, onOk: T -> U, onErr: E -> U): (u: U)
    ensures r.IsOk() ==> u == onOk(r.value)
    ensures r.IsErr() ==> u == onErr(r.error)
  {
    match r
    case Ok(v) => onOk(v)
    case Err(e) => onErr(e)
  }

  lemma OkXorErr<T, E>(r: Result<T, E>)
    ensures r.IsOk() != r.IsErr()
  {
  }

  /** Mapping twice is mapping once by the composition. */
  lemma MapCompose<T, E, U, V>(r: Result<T, E>, f: T -> U, g: U -> V)
    ensures r.Map(f).Map(g) == r.Map(x => g(f(x)))
  {
  }

  /** `map` and `map_err` act on different sides and commute. */
  lemma MapMapErrCommute<T, E, U, F>(r: Result<T, E>, f: T -> U, g: E -> F)
    ensures r.Map(f).MapErr(g) == r.MapErr(g).Map(f)
  {
  }

  /** Matching after `map` is matching with the composed success handler. */
  lemma MatchAfterMap<T, E, U, V>(r: Result<T, E>, f: T -> U, onOk: U -> V, onErr: E -> V)
    ensures MatchResult(r.Map(f), onOk, onErr) == MatchResult(r, x => onOk(f(x)), onErr)
  {
  }

  /** `unwrap_or` agrees with `unwrap` whenever `unwrap` returns. */
  lemma UnwrapOrAgrees<T, E>(r: Result<T, E>, default: T)
    ensures r.Unwrap().Returns? ==> r.UnwrapOr(default) == r.Unwrap().value
    ensures r.Unwrap().RaisesValueError? ==> r.UnwrapOr(default) == default
  {
  }
}
