/** Optional values, and results of calls that may raise. */
module Wrappers {

  datatype Option<+T> = None | Some(value: T)

  datatype Result<+T> = Ok(value: T) | Err(error: string)

  /** Values in front of a list that may have failed. */
  function After<T>(values: seq<T>, rest: Result<seq<T>>): (r: Result<seq<T>>) {
    match rest
    case Err(e) => Err(e)
    case Ok(more) => Ok(values + more)
  }

  lemma AfterNothing<T>(rest: Result<seq<T>>)
    ensures After([], rest) == rest
  {
    if rest.Ok? { assert [] + rest.value == rest.value; }
  }

  lemma AfterBoth<T>(a: seq<T>, b: seq<T>, rest: Result<seq<T>>)
    ensures After(a, After(b, rest)) == After(a + b, rest)
  {
    if rest.Ok? { assert a + (b + rest.value) == a + b + rest.value; }
  }
}
