/** The retry interval of the submission worker: minutes in an unsigned
    32-bit counter, 0 meaning "unset", doubled per failure up to 120. */
module Backoff {
  import opened CText

  type U32 = x: int | 0 <= x < 0x1_0000_0000

  const MaxInterval: int := 120
  const TicksPerMinute: int := 60 * 1_000_000
  /** VLC_TICK_INVALID: no attempt is scheduled. */
  const NoExchange: int := 0

  /** The interval HandleInterval leaves behind, with the 32-bit shift
      written out: never above 120, and 0 only when the shift pushes the
      single bit of 2^31 out of the word. */
  function NextInterval(i: U32): (r: U32)
    ensures i == 0 ==> r == 1
    ensures 0 < i < 0x8000_0000 ==> r == Min(2 * i, MaxInterval)
    ensures r <= MaxInterval
    ensures r == 0 <==> i == 0x8000_0000
  {
    if i == 0 then 1
    else
      var doubled := (2 * i) % U32Modulus;
      if doubled > MaxInterval then MaxInterval else doubled
  }

  /** HandleInterval: advance the interval and schedule the next attempt
      `interval` minutes after `now`. */
  method HandleInterval(now: int, interval: U32) returns (next: int, newInterval: U32)
    ensures newInterval == NextInterval(interval)
    ensures interval <= MaxInterval ==> 1 <= newInterval <= MaxInterval
    ensures next - now == newInterval * TicksPerMinute
  {
    newInterval := interval;
    if newInterval == 0 {
      newInterval := 1;
    } else {
      newInterval := (newInterval * 2) % U32Modulus;
      if newInterval > MaxInterval {
        newInterval := MaxInterval;
      }
    }
    next := now + newInterval * 60 * 1_000_000;
  }

  /** The interval after `n` consecutive calls of HandleInterval from "unset". */
  function Schedule(n: nat): U32 {
    if n == 0 then 0 else NextInterval(Schedule(n - 1))
  }

  function Pow2(n: nat): nat {
    if n == 0 then 1 else 2 * Pow2(n - 1)
  }

  /** The n-th consecutive failure waits min(2^(n-1), 120) minutes. */
  lemma {:induction false} BackoffSchedule(n: nat)
    requires n >= 1
    ensures Schedule(n) == Min(Pow2(n - 1), MaxInterval)
  {
    if n > 1 {
      BackoffSchedule(n - 1);
    }
  }

  /** From "unset": 1, 2, 4, ..., 64, then 120 for ever. */
  lemma {:induction false} BackoffSequence(n: nat)
    ensures Schedule(1) == 1 && Schedule(2) == 2 && Schedule(7) == 64
    ensures n >= 8 ==> Schedule(n) == MaxInterval
  {
    BackoffSchedule(1);
    BackoffSchedule(2);
    BackoffSchedule(7);
    if n >= 8 {
      BackoffSchedule(n);
      Pow2Grows(n - 1);
    }
  }

  lemma {:induction false} Pow2Grows(n: nat)
    requires n >= 7
    ensures Pow2(n) >= 128
  {
    if n > 7 {
      Pow2Grows(n - 1);
    }
  }

  /** The delay as the 3.0 plugin computes it: `*i_interval * 1000000 * 60`
      is evaluated in unsigned 32-bit arithmetic. */
  function LegacyDelay(interval: U32): U32 {
    ((interval * 1_000_000) % U32Modulus * 60) % U32Modulus
  }

  /** The 32-bit product wraps for the capped interval of 120 minutes, which
      then waits about 48 minutes; it is exact up to 71 minutes, so for every
      interval the schedule reaches below the cap. */
  lemma LegacyDelayWraps(interval: U32)
    ensures LegacyDelay(MaxInterval) == 2_905_032_704
    ensures LegacyDelay(MaxInterval) != MaxInterval * TicksPerMinute
    ensures interval <= 71 ==> LegacyDelay(interval) == interval * TicksPerMinute
  {
  }
}
