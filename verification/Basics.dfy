/** Small types shared by every module of the project. */
module Basics {

  datatype Option<+T> = None | Some(value: T)

  datatype Result<+T> = Ok(value: T) | Err

  /** What an API call did: it worked, it failed with no effect, or it took effect
      and the caller was still told that it failed (a timeout, a lost reply). */
  datatype Outcome = Success | FailedBefore | FailedAfter {
    predicate Effective() { !FailedBefore? }
  }

  /** The truth value of a Kubernetes condition. */
  datatype Condition = Unset | True | False | Unknown

  /** The element a name lookup returns: the first of the list the API answers with. */
  function First<T>(xs: seq<T>): Option<T> {
    if xs == [] then None else Some(xs[0])
  }
}
