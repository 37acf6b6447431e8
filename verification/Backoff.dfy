/** Retry delays: the Go formula for failed attempts and the SQL formula for expired leases. */
module Backoff {
  import opened Basics

  const BASE_MILLIS := 250
  const CAP_MILLIS := 60_000

  /** `1 << k`. */
  function Shl(k: nat): (r: nat)
    ensures 1 <= r
  {
    if k == 0 then 1 else 2 * Shl(k - 1)
  }

  /** The wait before the n-th retry in a row, in milliseconds: doubling from 250, up to a minute. */
  function RetryMillis(n: nat): nat {
    if n <= 1 then 250
    else if n == 2 then 500
    else if n == 3 then 1_000
    else if n == 4 then 2_000
    else if n == 5 then 4_000
    else if n == 6 then 8_000
    else if n == 7 then 16_000
    else if n == 8 then 32_000
    else 60_000
  }

  /** backoffDuration: the shift is capped before it is applied. */
  function AfterAttempt(attempt: int): Time {
    var positive := if attempt < 1 then 1 else attempt;
    var shift := if positive - 1 > 8 then 8 else positive - 1;
    var delay := BASE_MILLIS * MILLISECOND * Shl(shift);
    if delay > CAP_MILLIS * MILLISECOND then CAP_MILLIS * MILLISECOND else delay
  }

  /** The delay inside recoverLeases, from the count before it is incremented. */
  function AfterLeaseFailure(failuresBefore: nat): (d: Time)
    ensures BASE_MILLIS * MILLISECOND <= d <= CAP_MILLIS * MILLISECOND
  {
    var shift := if failuresBefore <= 8 then failuresBefore else 8;
    var delay := BASE_MILLIS * Shl(shift);
    (if delay <= CAP_MILLIS then delay else CAP_MILLIS) * MILLISECOND
  }

  lemma {:induction false} ShlMonotone(j: nat, k: nat)
    requires j <= k
    ensures Shl(j) <= Shl(k)
    decreases k
  {
    if j == k {
    } else {
      ShlMonotone(j, k - 1);
    }
  }

  lemma ShlEight()
    ensures Shl(8) == 256
  {
    assert Shl(4) == 16;
    assert Shl(6) == 4 * Shl(4);
  }

  lemma ShlUpToEight(k: nat)
    requires k <= 8
    ensures Shl(k) == [1, 2, 4, 8, 16, 32, 64, 128, 256][k]
  {
    assert Shl(2) == 4 && Shl(4) == 4 * Shl(2) && Shl(6) == 4 * Shl(4) && Shl(8) == 4 * Shl(6);
    assert Shl(3) == 8 && Shl(5) == 4 * Shl(3) && Shl(7) == 4 * Shl(5);
  }

  /** Both formulas give the same delays, for every count of failures: 250 ms, then twice the one before, never above
      a minute. */
  lemma FormulasAgree(n: nat)
    requires 1 <= n
    ensures AfterAttempt(n) == RetryMillis(n) * 1_000_000
    ensures AfterLeaseFailure(n - 1) == RetryMillis(n) * 1_000_000
    ensures RetryMillis(1) == 250 && RetryMillis(n + 1) == if 2 * RetryMillis(n) <= 60_000 then 2 * RetryMillis(n) else 60_000
  {
    ShlUpToEight(if n - 1 > 8 then 8 else n - 1);
  }

  /** The delay never shrinks with more failures and every intermediate product fits 64 bits. */
  lemma DelayMonotoneAndBounded(m: nat, n: nat)
    requires 1 <= m <= n
    ensures AfterAttempt(m) <= AfterAttempt(n) <= CAP_MILLIS * MILLISECOND
    ensures BASE_MILLIS * MILLISECOND * Shl(if n - 1 > 8 then 8 else n - 1) < 0x7fff_ffff_ffff_ffff
  {
    ShlEight();
    var a := if m - 1 > 8 then 8 else m - 1;
    var b := if n - 1 > 8 then 8 else n - 1;
    ShlMonotone(a, b);
    ShlMonotone(b, 8);
  }
}
