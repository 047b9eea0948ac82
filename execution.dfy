/** `syncTryCatchBulk`: run a list of steps in order, catching and logging
    what each throws, and optionally stopping at the first failure. A step
    is described only by whether it throws when invoked. */
module Execution {

  /** Index of the first step that throws, or `|throws|` when none does. */
  function FirstFailure(throws: seq<bool>): (k: nat)
    ensures k <= |throws|
    ensures forall i :: 0 <= i < k ==> !throws[i]
    ensures k < |throws| ==> throws[k]
  {
    if |throws| == 0 then 0
    else if throws[0] then 0
    else 1 + FirstFailure(throws[1..])
  }

  /** The indices below `n` of the steps that throw, in increasing order. */
  function FailedIndices(throws: seq<bool>, n: nat): (r: seq<nat>)
    requires n <= |throws|
    ensures forall k :: 0 <= k < |r| ==> r[k] < n && throws[r[k]]
    ensures forall i :: 0 <= i < n && throws[i] ==> i in r
    ensures forall a, b :: 0 <= a < b < |r| ==> r[a] < r[b]
  {
    if n == 0 then []
    else
      var r := FailedIndices(throws, n - 1);
      if throws[n - 1] then r + [n - 1] else r
  }

  /** `Range(n)` is `[0, 1, ..., n - 1]`. */
  function Range(n: nat): (r: seq<nat>)
    ensures |r| == n && forall k :: 0 <= k < n ==> r[k] == k
  {
    seq(n, k requires 0 <= k < n => k)
  }

  /** Runs the steps: returns the indices of the steps invoked, in order, and
      the indices logged as failures. Nothing escapes to the caller. */
  method SyncTryCatchBulk(throws: seq<bool>, breakWhenError: bool)
    returns (invoked: seq<nat>, logged: seq<nat>)
    ensures !breakWhenError ==> invoked == Range(|throws|)
    ensures breakWhenError ==>
      invoked == Range(if FirstFailure(throws) < |throws| then FirstFailure(throws) + 1 else |throws|)
    ensures logged == FailedIndices(throws, |invoked|)
  {
    invoked, logged := [], [];
    var index := 0;
    while index < |throws|
      invariant 0 <= index <= |throws|
      invariant invoked == Range(index)
      invariant logged == FailedIndices(throws, index)
      invariant breakWhenError ==> index <= FirstFailure(throws)
    {
      invoked := invoked + [index];
      if throws[index] {
        logged := logged + [index];
        if breakWhenError {
          index := index + 1;
          break;
        }
      }
      index := index + 1;
    }
  }
}
