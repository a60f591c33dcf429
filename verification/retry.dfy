/**
 * The framework's `retry($times, $callback, $sleep)` helper as `resend` uses
 * it: run the callback; on failure, wait and run it again, until it succeeds
 * or the allowed attempts are used up, in which case the last failure
 * propagates. Whether the mail transport succeeds on attempt k is the oracle
 * `delivers(k)`, attempts counted from 1; the wait itself is not modelled.
 */
module Retry {

  /** `retry(5, ...)` in `resend`. */
  const RESEND_ATTEMPTS := 5

  function AllowedAttempts(times: int): nat
  {
    if times < 1 then 1 else times
  }

  /**
   * Makes at least one attempt and at most `times`; stops at the first attempt
   * that delivers, and reports failure only when every allowed attempt failed.
   */
  method SendWithRetry(times: int, delivers: nat -> bool) returns (ok: bool, attempts: nat)
    ensures 1 <= attempts <= AllowedAttempts(times)
    ensures forall k :: 1 <= k < attempts ==> !delivers(k)
    ensures ok == delivers(attempts)
    ensures !ok ==> attempts == AllowedAttempts(times)
  {
    attempts := 0;
    var remaining := times;
    while true
      invariant 0 <= attempts < AllowedAttempts(times)
      invariant remaining == times - attempts
      invariant forall k :: 1 <= k <= attempts ==> !delivers(k)
      decreases AllowedAttempts(times) - attempts
    {
      attempts := attempts + 1;
      remaining := remaining - 1;
      if delivers(attempts) {
        return true, attempts;
      }
      if remaining < 1 {
        return false, attempts;
      }
    }
  }
}
