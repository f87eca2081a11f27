/**
 * The build outcome enumeration of the CI host (hudson.model.Result).
 * Only the five constants and their toString() names are modelled.
 */
module HudsonResult {
  import opened Wrappers

  datatype Result = SUCCESS | UNSTABLE | FAILURE | NOT_BUILT | ABORTED

  /** The name that Result.toString() gives for each constant. */
  function Name(r: Result): (s: string)
    ensures |s| > 0
    ensures forall i :: 0 <= i < |s| ==> 'A' <= s[i] <= 'Z' || s[i] == '_'
  {
    match r
    case SUCCESS => "SUCCESS"
    case UNSTABLE => "UNSTABLE"
    case FAILURE => "FAILURE"
    case NOT_BUILT => "NOT_BUILT"
    case ABORTED => "ABORTED"
  }

  /** The constant whose name is exactly `s`, if there is one. */
  function FromName(s: string): (r: Option<Result>)
    ensures r.Some? ==> Name(r.value) == s
  {
    if s == "SUCCESS" then Some(SUCCESS)
    else if s == "UNSTABLE" then Some(UNSTABLE)
    else if s == "FAILURE" then Some(FAILURE)
    else if s == "NOT_BUILT" then Some(NOT_BUILT)
    else if s == "ABORTED" then Some(ABORTED)
    else None
  }

  /** Every constant is recovered from its name, so no two constants share a name. */
  lemma NameRoundTrip(r: Result)
    ensures FromName(Name(r)) == Some(r)
  {
  }

  lemma NameInjective(r: Result, q: Result)
    ensures Name(r) == Name(q) <==> r == q
  {
  }
}
