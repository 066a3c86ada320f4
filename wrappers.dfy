/** Failure-carrying values shared by every module. An error is the message
    text the source would raise (`ValueError(msg)`, `str(e)`). */
module Wrappers {

  datatype Option<+T> = None | Some(value: T) {
    /** Python's `d.get(key, default)` once the lookup has produced an Option. */
    function GetOr(default: T): T {
      match this
      case Some(v) => v
      case None => default
    }
  }

  /** The result of a call that either returns a value or raises with a message. */
  datatype Result<+T> = Success(value: T) | Failure(error: string)

  /** A call whose only observable effect is whether it raised. */
  datatype Outcome = Pass | Fail(error: string)

  predicate IsPrefix(p: string, s: string) {
    |p| <= |s| && s[..|p|] == p
  }

  /** `raise ValueError(f"{prefix}{str(e)}")` applied to a failure; successes pass unchanged. */
  function WithPrefix<T>(prefix: string, r: Result<T>): (w: Result<T>)
    ensures r.Success? ==> w == r
    ensures r.Failure? ==> w.Failure? && IsPrefix(prefix, w.error) && w.error[|prefix|..] == r.error
  {
    match r
    case Success(v) => Success(v)
    case Failure(e) => Failure(prefix + e)
  }
}
