/**
 * The two readiness conditions of the bootstrap (start.py, `validate_zookeeper` and
 * `validate_kafka`). The remote `node.execute(...)` is not run: its result, an exit code and
 * the captured output, is an input. The `quiet` flag only affects logging and is dropped.
 */
module Readiness {
  import opened Wrappers
  import opened Text
  import opened JsonArray
  import opened Poller

  /** What `node.execute(command)` returns. */
  datatype ExecResult = ExecResult(exitCode: int, output: string)

  /** ZooKeeper is up when `zookeeper-shell localhost:2181 ls /` exits with status 0. */
  function ValidateZookeeper(result: ExecResult): (ready: bool)
    ensures ready <==> result.exitCode == 0
  {
    result.exitCode == 0
  }

  /**
   * All brokers are registered when the last line printed for `ls /brokers/ids` is a JSON
   * array with `brokerCount` elements. A failed command or an output that does not start
   * with '[' means "not yet"; an output that starts with '[' but is not valid JSON makes
   * `json.loads` raise, and nothing catches it.
   */
  function ValidateKafka(result: ExecResult, brokerCount: nat): (r: Result<bool, Error>)
    ensures r == Success(true) <==>
      && result.exitCode == 0
      && StartsWith(result.output, "[")
      && ParseArray(result.output).Some?
      && |ParseArray(result.output).value| == brokerCount
    ensures r.Failure? <==>
      && result.exitCode == 0
      && StartsWith(result.output, "[")
      && ParseArray(result.output).None?
    ensures r.Failure? ==> r.error == JsonDecodeError
  {
    if result.exitCode != 0 then Success(false)
    else if !StartsWith(result.output, "[") then Success(false)
    else match ParseArray(result.output)
      case None => Failure(JsonDecodeError)
      case Some(ids) => Success(|ids| == brokerCount)
  }

  /** The condition results of the ZooKeeper wait, one per check. */
  function ZookeeperChecks(polls: seq<ExecResult>): (results: seq<Result<bool, Error>>)
  {
    seq(|polls|, i requires 0 <= i < |polls| => Success(ValidateZookeeper(polls[i])))
  }

  /** The condition results of the broker-registration wait, one per check. */
  function KafkaChecks(polls: seq<ExecResult>, brokerCount: nat): (results: seq<Result<bool, Error>>)
  {
    seq(|polls|, i requires 0 <= i < |polls| => ValidateKafka(polls[i], brokerCount))
  }

  /**
   * When the shell lists the registered broker ids, the check reports whether there are
   * exactly `brokerCount` of them: an array one short or one too long is "not yet".
   */
  lemma ValidateKafkaOnListing(ids: seq<int>, brokerCount: nat)
    ensures ValidateKafka(ExecResult(0, Render(ids)), brokerCount) == Success(|ids| == brokerCount)
  {
    ParseArrayOfRender(ids);
  }

  /** A failed command, or output that does not start with '[' (empty, `null`, an object), is "not yet". */
  lemma ValidateKafkaNotAnArray(result: ExecResult, brokerCount: nat)
    requires result.exitCode != 0 || !StartsWith(result.output, "[")
    ensures ValidateKafka(result, brokerCount) == Success(false)
  {
  }

  /** A bare '[' (a listing cut short) makes the check raise instead of answering. */
  lemma ValidateKafkaTruncated(brokerCount: nat)
    ensures ValidateKafka(ExecResult(0, "["), brokerCount) == Failure(JsonDecodeError)
  {
    assert SkipWhitespace("["[1..]) == [];
  }

  /** Some ZooKeeper check in `polls` exited with status 0. */
  predicate ZookeeperAnswers(polls: seq<ExecResult>)
  {
    exists i :: 0 <= i < |polls| && polls[i].exitCode == 0
  }

  /**
   * The ZooKeeper wait succeeds exactly when some check in the budget sees exit status 0;
   * otherwise it raises a TimeoutError with the wait's timeout.
   */
  lemma ZookeeperWaitOutcome(polls: seq<ExecResult>, timeout: nat)
    ensures WaitForCondition(ZookeeperChecks(polls), timeout).Satisfied? <==> ZookeeperAnswers(polls)
    ensures !WaitForCondition(ZookeeperChecks(polls), timeout).Satisfied? ==>
            WaitForCondition(ZookeeperChecks(polls), timeout) == Raised(TimeoutError(timeout))
  {
    var results := ZookeeperChecks(polls);
    WaitForConditionMeaning(results, timeout);
    var w := WaitForCondition(results, timeout);
    if w.Satisfied? {
      assert polls[w.checks - 1].exitCode == 0;
    } else {
      forall k | 0 <= k < |results| ensures results[k] != Failure(w.error) { }
      forall i | 0 <= i < |polls| ensures polls[i].exitCode != 0 {
        assert results[i] == Success(false);
      }
    }
  }

  /**
   * The broker wait succeeds at the first check where the shell lists exactly
   * `brokerCount` ids, when every earlier check said "not yet".
   */
  lemma KafkaWaitSucceedsOnListing(polls: seq<ExecResult>, brokerCount: nat, timeout: nat, k: nat, ids: seq<int>)
    requires k < |polls| && polls[k] == ExecResult(0, Render(ids)) && |ids| == brokerCount
    requires forall j :: 0 <= j < k ==> ValidateKafka(polls[j], brokerCount) == Success(false)
    ensures WaitForCondition(KafkaChecks(polls, brokerCount), timeout) == Satisfied(k + 1)
  {
    ValidateKafkaOnListing(ids, brokerCount);
    WaitDecidedByFirst(KafkaChecks(polls, brokerCount), timeout, k);
  }

  /**
   * A malformed listing seen before the brokers are all registered aborts the wait with the
   * decoding error instead of retrying.
   */
  lemma KafkaWaitAbortsOnMalformed(polls: seq<ExecResult>, brokerCount: nat, timeout: nat, k: nat)
    requires k < |polls| && polls[k].exitCode == 0 && StartsWith(polls[k].output, "[")
    requires ParseArray(polls[k].output).None?
    requires forall j :: 0 <= j < k ==> ValidateKafka(polls[j], brokerCount) == Success(false)
    ensures WaitForCondition(KafkaChecks(polls, brokerCount), timeout) == Raised(JsonDecodeError)
  {
    WaitDecidedByFirst(KafkaChecks(polls, brokerCount), timeout, k);
  }

  /** The broker wait can only end in a timeout or a decoding error. */
  lemma KafkaWaitErrors(polls: seq<ExecResult>, brokerCount: nat, timeout: nat)
    ensures WaitForCondition(KafkaChecks(polls, brokerCount), timeout).Raised? ==>
            WaitForCondition(KafkaChecks(polls, brokerCount), timeout).error in {TimeoutError(timeout), JsonDecodeError}
  {
    WaitForConditionMeaning(KafkaChecks(polls, brokerCount), timeout);
  }
}
