/**
 An independent description of the handlers' shape: an ordered list of
 required-field checks, the first failing one deciding the error message.
 */
module Validation {
  import opened Wrappers

  /** One required-field check: whether it passed and what to say if it did not. */
  datatype Check = Check(passes: bool, message: string)

  /** True when every check in `checks` passes. */
  predicate AllPass(checks: seq<Check>) {
    forall i :: 0 <= i < |checks| ==> checks[i].passes
  }

  /** True when the check at index `k` is the first one that fails. */
  predicate FirstFailingAt(checks: seq<Check>, k: int) {
    && 0 <= k < |checks|
    && !checks[k].passes
    && forall j :: 0 <= j < k ==> checks[j].passes
  }

  /** The message of the first failing check, or `None` when all pass. */
  function FirstFailure(checks: seq<Check>): (r: Option<string>)
    ensures r.None? <==> AllPass(checks)
    ensures r.Some? ==> exists k :: FirstFailingAt(checks, k) && checks[k].message == r.value
  {
    if |checks| == 0 then None
    else if !checks[0].passes then Some(checks[0].message)
    else
      var rest := FirstFailure(checks[1..]);
      assert forall i :: 1 <= i < |checks| ==> checks[i] == checks[1..][i - 1];
      if rest.Some? then
        var k :| FirstFailingAt(checks[1..], k) && checks[1..][k].message == rest.value;
        assert FirstFailingAt(checks, k + 1);
        rest
      else
        rest
  }

  /** The first failing check is unique, so its message is determined. */
  lemma FirstFailureIsFirst(checks: seq<Check>, k: int)
    requires FirstFailingAt(checks, k)
    ensures FirstFailure(checks) == Some(checks[k].message)
  {
  }
}
