/** How long a unit waits before it is tried again: the delay doubles up to a maximum. */
module Backoff {

  /** A 64-bit duration; arithmetic on it that overflows does not verify. */
  newtype Duration = d: int | -0x8000_0000_0000_0000 <= d < 0x8000_0000_0000_0000

  function Pow2(n: nat): (p: nat)
    ensures p > 0
  {
    if n == 0 then 1 else 2 * Pow2(n - 1)
  }

  /** The delay before attempt number `attempts + 1`, in closed form. */
  function Delay(initial: int, max: int, attempts: int): int {
    if attempts <= 1 then initial
    else if initial * Pow2(attempts - 1) > max then max
    else initial * Pow2(attempts - 1)
  }

  lemma Doubles(initial: int, n: nat)
    ensures initial * Pow2(n + 1) == 2 * (initial * Pow2(n))
  {
  }

  lemma {:induction false} Grows(initial: int, m: nat, n: nat)
    requires initial > 0 && m <= n
    ensures initial * Pow2(m) <= initial * Pow2(n)
    ensures initial * Pow2(m) > 0
    decreases n
  {
    if m < n {
      Grows(initial, m, n - 1);
      Doubles(initial, n - 1);
    }
  }

  /** The loop that doubles computes the closed form and never overflows below 2^62. */
  method CalculateBackoffDuration(initial: Duration, max: Duration, attempts: int) returns (duration: Duration)
    requires 0 < initial < 0x4000_0000_0000_0000 && max < 0x4000_0000_0000_0000
    ensures duration as int == Delay(initial as int, max as int, attempts)
  {
    duration := initial;
    var i := 1;
    while i < attempts
      invariant 1 <= i && (attempts <= 1 ==> i == 1) && (attempts > 1 ==> i <= attempts)
      invariant duration as int == initial as int * Pow2(i - 1)
      invariant 0 < duration < 0x4000_0000_0000_0000
      invariant i > 1 ==> duration <= max
    {
      Doubles(initial as int, i - 1);
      duration := duration * 2;
      if duration > max {
        Grows(initial as int, i, attempts - 1);
        return max;
      }
      i := i + 1;
    }
  }

  /** With an initial delay of at most the maximum, delays never exceed it and never shrink. */
  lemma DelayIsMonotone(initial: int, max: int, attempts: int, later: int)
    requires 0 < initial <= max && attempts <= later
    ensures initial <= Delay(initial, max, attempts) <= Delay(initial, max, later) <= max
  {
    if attempts > 1 {
      Grows(initial, 0, attempts - 1);
      Grows(initial, attempts - 1, later - 1);
    } else if later > 1 {
      Grows(initial, 0, later - 1);
    }
  }

  /** The bound of the maximum holds if and only if the initial delay respects it or there was a retry. */
  lemma DelayIsBounded(initial: int, max: int, attempts: int)
    requires 0 < initial && 0 < max
    ensures Delay(initial, max, attempts) <= max <==> initial <= max || attempts > 1
  {
  }
}
