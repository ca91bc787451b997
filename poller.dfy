/**
 * The condition poller (`clusterdock.utils.wait_for_condition`, with the script's `failure`
 * callback). The poller's clock is not modelled: the oracle is the sequence of results the
 * condition returns at the checks that fit in the time budget, in order. Each result is
 * `Success(true)` (satisfied), `Success(false)` (not yet) or `Failure(e)` (the condition
 * raised `e`).
 */
module Poller {
  import opened Wrappers

  /** The exceptions that can end the bootstrap. */
  datatype Error =
    | TimeoutError(timeout: nat)  // raised by `failure(timeout)`: 'Timed out after {timeout} seconds waiting.'
    | JsonDecodeError             // raised by `json.loads` inside a condition
    | IndexError                  // raised by `nodes[0]` on an empty roster

  datatype WaitOutcome =
    | Satisfied(checks: nat)      // the condition held at check number `checks`
    | Raised(error: Error)

  /**
   * Checks the condition until it holds; an exception raised by the condition propagates at
   * once, and when every check in the budget says "not yet" the failure callback raises a
   * TimeoutError carrying the timeout.
   */
  function WaitForCondition(results: seq<Result<bool, Error>>, timeout: nat): WaitOutcome
  {
    if |results| == 0 then Raised(TimeoutError(timeout))
    else match results[0]
      case Failure(e) => Raised(e)
      case Success(true) => Satisfied(1)
      case Success(false) =>
        match WaitForCondition(results[1..], timeout)
        case Satisfied(n) => Satisfied(n + 1)
        case Raised(e) => Raised(e)
  }

  /**
   * A wait succeeds at the first check that says "satisfied", every earlier check having
   * said "not yet"; it raises either the timeout, when every check said "not yet", or the
   * exception of the first check that raised, every earlier check having said "not yet".
   */
  lemma {:induction false} WaitForConditionMeaning(results: seq<Result<bool, Error>>, timeout: nat)
    ensures var w := WaitForCondition(results, timeout);
      w.Satisfied? ==>
        && 1 <= w.checks <= |results|
        && results[w.checks - 1] == Success(true)
        && forall j :: 0 <= j < w.checks - 1 ==> results[j] == Success(false)
    ensures var w := WaitForCondition(results, timeout);
      w.Raised? ==>
        || (&& w.error == TimeoutError(timeout)
            && forall j :: 0 <= j < |results| ==> results[j] == Success(false))
        || (exists k :: && 0 <= k < |results|
                        && results[k] == Failure(w.error)
                        && forall j :: 0 <= j < k ==> results[j] == Success(false))
  {
    if |results| > 0 && results[0] == Success(false) {
      var rest := results[1..];
      WaitForConditionMeaning(rest, timeout);
      var w := WaitForCondition(rest, timeout);
      if w.Raised? && !(w.error == TimeoutError(timeout) && forall j :: 0 <= j < |rest| ==> rest[j] == Success(false)) {
        var k :| 0 <= k < |rest| && rest[k] == Failure(w.error) && forall j :: 0 <= j < k ==> rest[j] == Success(false);
        assert results[k + 1] == Failure(w.error);
      }
    }
  }

  /** The outcome is decided by the first check that does not say "not yet". */
  lemma WaitDecidedByFirst(results: seq<Result<bool, Error>>, timeout: nat, k: nat)
    requires k < |results| && results[k] != Success(false)
    requires forall j :: 0 <= j < k ==> results[j] == Success(false)
    ensures results[k] == Success(true) ==> WaitForCondition(results, timeout) == Satisfied(k + 1)
    ensures results[k].Failure? ==> WaitForCondition(results, timeout) == Raised(results[k].error)
  {
    WaitForConditionMeaning(results, timeout);
    var w := WaitForCondition(results, timeout);
    if w.Satisfied? {
      assert w.checks - 1 == k;
    } else if !(w.error == TimeoutError(timeout) && forall j :: 0 <= j < |results| ==> results[j] == Success(false)) {
      var k' :| 0 <= k' < |results| && results[k'] == Failure(w.error)
                && forall j :: 0 <= j < k' ==> results[j] == Success(false);
      assert k' == k;
    }
  }
}
