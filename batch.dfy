/** The aggregation step of `batchSendMessages`: the settled outcomes of
    `Promise.allSettled`, counted and reshaped. Outcomes are indexed by
    input position, so the order the promises settle in plays no part. */
module Batch {
  import opened Wrappers

  /** `{ successful, failed, results }`: `results[i]` is `r.value` when the
      i-th promise fulfilled and `r.reason` when it rejected. */
  datatype BatchResult<T, E> = BatchResult(successful: nat, failed: nat, results: seq<Result<T, E>>)

  /** `results.filter(r => r.status === 'fulfilled').length`. */
  function CountFulfilled<T, E>(outcomes: seq<Result<T, E>>): nat
    decreases |outcomes|
  {
    if outcomes == [] then 0
    else CountFulfilled(outcomes[1..]) + (if outcomes[0].Success? then 1 else 0)
  }

  /** `results.filter(r => r.status === 'rejected').length`. */
  function CountRejected<T, E>(outcomes: seq<Result<T, E>>): nat
    decreases |outcomes|
  {
    if outcomes == [] then 0
    else CountRejected(outcomes[1..]) + (if outcomes[0].Failure? then 1 else 0)
  }

  /** Every outcome is counted exactly once. */
  lemma {:induction false} CountsPartition<T, E>(outcomes: seq<Result<T, E>>)
    ensures CountFulfilled(outcomes) + CountRejected(outcomes) == |outcomes|
    decreases |outcomes|
  {
    if outcomes != [] {
      CountsPartition(outcomes[1..]);
    }
  }

  /** The batch summary, keeping the outcomes in input order. */
  function Aggregate<T, E>(outcomes: seq<Result<T, E>>): (b: BatchResult<T, E>)
    ensures b.successful == CountFulfilled(outcomes) && b.failed == CountRejected(outcomes)
    ensures b.successful + b.failed == |outcomes|
    ensures |b.results| == |outcomes|
    ensures forall i :: 0 <= i < |outcomes| ==> b.results[i] == outcomes[i]
  {
    CountsPartition(outcomes);
    BatchResult(CountFulfilled(outcomes), CountRejected(outcomes), outcomes)
  }

  /** No rejection is lost or invented: the failed count is zero exactly
      when every outcome fulfilled. */
  lemma {:induction false} NoFailureIffAllFulfilled<T, E>(outcomes: seq<Result<T, E>>)
    ensures CountRejected(outcomes) == 0 <==> forall i :: 0 <= i < |outcomes| ==> outcomes[i].Success?
    decreases |outcomes|
  {
    if outcomes != [] {
      NoFailureIffAllFulfilled(outcomes[1..]);
      if CountRejected(outcomes) == 0 {
        forall i | 0 <= i < |outcomes| ensures outcomes[i].Success? {
          if i > 0 { assert outcomes[i] == outcomes[1..][i - 1]; }
        }
      } else if outcomes[0].Success? {
        var i :| 0 <= i < |outcomes[1..]| && !outcomes[1..][i].Success?;
        assert outcomes[i + 1] == outcomes[1..][i];
      }
    }
  }

  /** One rejection among otherwise fulfilled outcomes: the batch reports
      exactly one failure and every other entry is the fulfilled value. */
  lemma {:induction false} SingleFailure<T, E>(outcomes: seq<Result<T, E>>, k: nat)
    requires k < |outcomes| && outcomes[k].Failure?
    requires forall i :: 0 <= i < |outcomes| && i != k ==> outcomes[i].Success?
    ensures Aggregate(outcomes).failed == 1
    ensures Aggregate(outcomes).successful == |outcomes| - 1
    decreases |outcomes|
  {
    CountsPartition(outcomes);
    var rest := outcomes[1..];
    if k == 0 {
      NoFailureIffAllFulfilled(rest);
    } else {
      forall i | 0 <= i < |rest| && i != k - 1 ensures rest[i].Success? {
        assert rest[i] == outcomes[i + 1];
      }
      SingleFailure(rest, k - 1);
      CountsPartition(rest);
    }
  }
}
