/**
 The retry delay of the worker, with Go's 64-bit arithmetic written out, and
 the total delay of a chain of retries.
 */
module Backoff {
  import opened Jobs

  /** One time.Second, in nanoseconds. */
  const SECOND: int := 1_000_000_000
  /** maxBackoff, one hour. */
  const MAX_BACKOFF: int := 3600 * SECOND

  function Pow2(n: nat): (p: nat)
    ensures p >= 1
  {
    if n == 0 then 1 else 2 * Pow2(n - 1)
  }

  /** Two's-complement wrap-around of an int64. */
  function Wrap64(x: int): (r: int)
    ensures -0x8000_0000_0000_0000 <= r < 0x8000_0000_0000_0000
  {
    (x + 0x8000_0000_0000_0000) % 0x1_0000_0000_0000_0000 - 0x8000_0000_0000_0000
  }

  /** Go's `1 << n` on an int64; a negative count panics, hence the precondition. */
  function ShiftOne(n: nat): int {
    Wrap64(Pow2(n))
  }

  lemma WrapInRange(x: int)
    requires -0x8000_0000_0000_0000 <= x < 0x8000_0000_0000_0000
    ensures Wrap64(x) == x
  {
  }

  lemma {:induction false} PowMonotone(a: nat, b: nat)
    requires a <= b
    ensures Pow2(a) <= Pow2(b)
    decreases b
  {
    if a < b { PowMonotone(a, b - 1); }
  }

  lemma PowValues()
    ensures Pow2(11) == 2048 && Pow2(12) == 4096 && Pow2(29) == 0x2000_0000
  {
    assert Pow2(4) == 16;
    assert Pow2(8) == 256;
    assert Pow2(11) == 2048;
    assert Pow2(12) == 4096;
    assert Pow2(16) == 65536;
    assert Pow2(20) == 0x10_0000;
    assert Pow2(24) == 0x100_0000;
    assert Pow2(28) == 0x1000_0000;
  }

  /** The raw product is an exact int64 for every attempt that reaches it. */
  lemma BackoffNeverOverflows(attempt: nat)
    requires attempt < 30
    ensures ShiftOne(attempt) == Pow2(attempt)
    ensures Wrap64(ShiftOne(attempt) * SECOND) == Pow2(attempt) * SECOND
  {
    PowValues();
    PowMonotone(attempt, 29);
    WrapInRange(Pow2(attempt));
    WrapInRange(Pow2(attempt) * SECOND);
  }

  /** What the delay is meant to be, in whole seconds. */
  function DelaySeconds(attempt: nat): (s: nat) {
    if Pow2(attempt) < 3600 then Pow2(attempt) else 3600
  }

  /** backoffFor: the int64 product never wraps, and the result is whole seconds. */
  function BackoffFor(attempt: nat): (d: int)
    ensures d == DelaySeconds(attempt) * 1_000_000_000
    ensures 0 < d <= 3_600_000_000_000
  {
    PowValues();
    if attempt >= 30 then
      PowMonotone(12, attempt);
      MAX_BACKOFF
    else
      BackoffNeverOverflows(attempt);
      var d := Wrap64(ShiftOne(attempt) * SECOND);
      if d < MAX_BACKOFF then d else MAX_BACKOFF
  }

  lemma BackoffMonotone(a: nat, b: nat)
    requires a <= b
    ensures BackoffFor(a) <= BackoffFor(b)
  {
    PowMonotone(a, b);
  }

  /** time.Time.Unix: whole seconds, rounding towards the past. */
  function Unix(t: Time): (s: int)
    ensures s * 1_000_000_000 <= t < (s + 1) * 1_000_000_000
  {
    t / SECOND
  }

  /** Adding a delay of whole seconds moves the truncated clock by exactly that much. */
  lemma UnixAddBackoff(t: Time, attempt: nat)
    ensures Unix(t + BackoffFor(attempt)) == Unix(t) + DelaySeconds(attempt)
  {
  }

  lemma UnixMonotone(a: Time, b: Time)
    requires a <= b
    ensures Unix(a) <= Unix(b)
  {
  }

  /** The seconds a job has been told to wait after its first n failures. */
  function ChainSeconds(n: nat): (s: nat) {
    if n == 0 then 0 else ChainSeconds(n - 1) + DelaySeconds(n)
  }

  lemma {:induction false} ChainClosedForm(n: nat)
    ensures n <= 11 ==> ChainSeconds(n) == Pow2(n + 1) - 2
    ensures n >= 11 ==> ChainSeconds(n) == 4094 + 3600 * (n - 11)
  {
    PowValues();
    if n > 0 {
      ChainClosedForm(n - 1);
      if n <= 11 {
        PowMonotone(n, 11);
      } else {
        PowMonotone(12, n);
      }
    }
  }
}
