/**
 * The bounded retry loop shared by `analyzeCV` and `searchOpportunities`:
 * attempt `k` (counting from 0) runs the remote call on the same request; a
 * failed attempt other
 * than the last waits `baseDelay * (k + 1)` milliseconds before the next one;
 * after the last failed attempt the last error is rethrown unchanged.
 * Waiting is recorded, not performed: `delays` lists the waits in order.
 */
module Retry {
  import opened Wrappers
  import opened Types

  method Retry<Q, T>(call: (Q, nat) -> Result<T, Exception>, request: Q, maxAttempts: nat, baseDelay: nat)
    returns (r: Result<T, Exception>, tries: nat, delays: seq<nat>)
    requires maxAttempts > 0
    ensures 1 <= tries <= maxAttempts
    ensures forall k :: 0 <= k < tries - 1 ==> call(request, k).Failure?
    ensures r == call(request, tries - 1)
    ensures r.Failure? ==> tries == maxAttempts
    ensures |delays| == tries - 1
    ensures forall k :: 0 <= k < |delays| ==> delays[k] == baseDelay * (k + 1)
  {
    var lastError := Exception("undefined");
    tries, delays := 0, [];
    var k := 0;
    while k < maxAttempts
      invariant 0 <= k <= maxAttempts && tries == k
      invariant forall j :: 0 <= j < k ==> call(request, j).Failure?
      invariant k > 0 ==> call(request, k - 1) == Failure(lastError)
      invariant |delays| == (if k < maxAttempts then k else k - 1)
      invariant forall j :: 0 <= j < |delays| ==> delays[j] == baseDelay * (j + 1)
    {
      var outcome := call(request, k);
      tries := k + 1;
      if outcome.Success? {
        r := outcome;
        return;
      }
      lastError := outcome.error;
      if k < maxAttempts - 1 {
        delays := delays + [baseDelay * (k + 1)];
      }
      k := k + 1;
    }
    r := Failure(lastError);
  }
}
