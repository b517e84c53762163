/** The retry loop around an API call (src/core/api/retry.ts). Attempt `k`'s
    outcome is `outcome(k)`; the loop records how many calls it made and the
    delays it waited between them. */
module Retry {
  import opened Base
  import opened Json
  import opened Errors

  /** The wait before retrying after failed attempt `attempt`. */
  function RetryDelay(attempt: nat): (d: int)
    ensures 1000 <= d <= 5000
    ensures attempt >= 4 ==> d == 5000
  {
    if 1000 * (attempt + 1) < 5000 then 1000 * (attempt + 1) else 5000
  }

  /** The delays of the first `n` retries. */
  function Delays(n: nat): seq<int> {
    seq(n, k requires 0 <= k < n => RetryDelay(k))
  }

  /** The delays grow and stay at most five seconds. */
  lemma DelaysGrow(n: nat)
    ensures forall i, j :: 0 <= i <= j < n ==> Delays(n)[i] <= Delays(n)[j] <= 5000
  {
  }

  /** What the loop ends with: a value, or what it throws; an `undefined`
      throw is `Err(None)`. */
  method WithRetry(retries: int, outcome: nat -> Result<Value, Failure>)
    returns (result: Result<Value, Option<Failure>>, calls: nat, delays: seq<int>)
    ensures retries < 0 ==> result == Err(None) && calls == 0 && delays == []
    ensures retries >= 0 ==> 1 <= calls <= retries + 1 && delays == Delays(calls - 1)
    ensures forall k :: 0 <= k < calls - 1 ==> outcome(k).Err? && IsRetryable(outcome(k).error)
    ensures calls >= 1 ==>
      var last := outcome(calls - 1);
      && result == (if last.Ok? then Ok(last.value) else Err(Some(last.error)))
      && (last.Ok? || calls - 1 == retries || !IsRetryable(last.error))
  {
    calls := 0;
    delays := [];
    var attempt := 0;
    while attempt <= retries
      invariant attempt == calls && (if retries < 0 then calls == 0 else calls <= retries)
      invariant delays == Delays(calls)
      invariant forall k :: 0 <= k < calls ==> outcome(k).Err? && IsRetryable(outcome(k).error)
    {
      assert delays == Delays(calls);
      calls := calls + 1;
      var r := outcome(attempt);
      if r.Ok? {
        return Ok(r.value), calls, delays;
      }
      if attempt == retries {
        return Err(Some(r.error)), calls, delays;
      }
      if IsRetryable(r.error) {
        assert Delays(attempt) + [RetryDelay(attempt)] == Delays(attempt + 1);
        delays := delays + [RetryDelay(attempt)];
      } else {
        return Err(Some(r.error)), calls, delays;
      }
      attempt := attempt + 1;
    }
    result := Err(None);
  }
}
