/** Option and Result values standing for Python's `None` and for raised exceptions. */
module Wrappers {

  datatype Option<+T> = None | Some(value: T) {

    /** Python's `x if x is not None else default`. */
    function GetOr(default: T): T {
      match this
      case Some(v) => v
      case None => default
    }
  }

  /** `Fail` stands for an exception that escapes the modelled code. */
  datatype Result<+T, +E> = Ok(value: T) | Fail(error: E)

  /** `acc` followed by the rest of a list being built, or `None` when building it failed. */
  function PrependSome<T>(acc: seq<T>, rest: Option<seq<T>>): Option<seq<T>> {
    match rest
    case Some(r) => Some(acc + r)
    case None => None
  }

  lemma PrependSomeNil<T>(rest: Option<seq<T>>)
    ensures PrependSome([], rest) == rest
  {
    if rest.Some? {
      assert [] + rest.value == rest.value;
    }
  }

  lemma PrependSomeAssoc<T>(a: seq<T>, b: seq<T>, rest: Option<seq<T>>)
    ensures PrependSome(a, PrependSome(b, rest)) == PrependSome(a + b, rest)
  {
    if rest.Some? {
      assert a + (b + rest.value) == (a + b) + rest.value;
    }
  }

  /** `acc` followed by the rest of a list being built, or the failure that aborted it. */
  function PrependOk<T, E>(acc: seq<T>, rest: Result<seq<T>, E>): Result<seq<T>, E> {
    match rest
    case Ok(r) => Ok(acc + r)
    case Fail(e) => Fail(e)
  }

  lemma PrependOkNil<T, E>(rest: Result<seq<T>, E>)
    ensures PrependOk([], rest) == rest
  {
    if rest.Ok? {
      assert [] + rest.value == rest.value;
    }
  }

  lemma PrependOkAssoc<T, E>(a: seq<T>, b: seq<T>, rest: Result<seq<T>, E>)
    ensures PrependOk(a, PrependOk(b, rest)) == PrependOk(a + b, rest)
  {
    if rest.Ok? {
      assert a + (b + rest.value) == (a + b) + rest.value;
    }
  }
}
