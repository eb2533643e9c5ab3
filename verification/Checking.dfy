/** Operations that check conditions in order and report the first that fails. */
module Checking {
  import opened Numbers

  /** Conditions checked in order, each with the error that reports its failure. */
  datatype Checks = Accept | Require(holds: bool, error: Error, next: Checks)

  /** The error of the first condition that fails; None if all hold. */
  function Refusal(checks: Checks): Option<Error> {
    match checks
    case Accept => None
    case Require(holds, error, next) => if holds then Refusal(next) else Some(error)
  }

  /** The result is a success if all checks hold, and else the error of the first that does not. */
  predicate Decides<T>(checks: Checks, r: Result<T>) {
    match r
    case Ok(_) => Refusal(checks) == None
    case Err(e) => Refusal(checks) == Some(e)
  }

  /** One step of the definition of `Refusal`. */
  lemma {:induction false} RefusalOf(checks: Checks)
    requires checks.Require?
    ensures Refusal(checks) == if checks.holds then Refusal(checks.next) else Some(checks.error)
    ensures Refusal(Accept) == None
  {
  }
}
