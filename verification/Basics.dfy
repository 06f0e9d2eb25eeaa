/** Optional values, results and the integer maximum. */
module Basics {

  datatype Option<+T> = None | Some(value: T)

  datatype Result<+T> = Ok(value: T) | Fail

  function Max(a: int, b: int): (m: int)
    ensures a <= m && b <= m && (m == a || m == b)
  {
    if a < b then b else a
  }

  /** A condition, and the answer where it fails. */
  datatype Check<+R> = Check(ok: bool, refusal: R)

  /** The answer of the first check that fails, or the last resort if none does. */
  ghost predicate FirstRefusal<R>(checks: seq<Check<R>>, otherwise: R, answer: R) {
    || (exists n :: 0 <= n < |checks| && FailsAt(checks, n) && answer == checks[n].refusal)
    || ((forall n :: 0 <= n < |checks| ==> checks[n].ok) && answer == otherwise)
  }

  ghost predicate FailsAt<R>(checks: seq<Check<R>>, n: nat)
    requires n < |checks|
  {
    !checks[n].ok && forall m :: 0 <= m < n ==> checks[m].ok
  }
}
