/** Bounds that several parts of the repository share. */
module Limits {

  /** A TCP port. */
  predicate ValidPort(p: int) {
    1 <= p <= 65535
  }

  /** The minutes before a failed intent is tried again: doubling, at most an hour. */
  function BackoffMinutes(attempts: nat): (minutes: nat)
    ensures 2 <= minutes <= 60
  {
    if attempts >= 6 then 60 else [2, 2, 4, 8, 16, 32][attempts]
  }

  function DoubledMinutes(attempts: nat): nat {
    if attempts <= 1 then 2 else 2 * DoubledMinutes(attempts - 1)
  }

  /** Two minutes after the first attempt, twice as long after each further one, never above an hour. */
  lemma {:induction false} BackoffIsDoubledAndCapped(attempts: nat)
    ensures BackoffMinutes(attempts) == if DoubledMinutes(attempts) <= 60 then DoubledMinutes(attempts) else 60
    ensures attempts >= 6 ==> DoubledMinutes(attempts) > 60
  {
    if attempts > 6 {
      BackoffIsDoubledAndCapped(attempts - 1);
    } else if attempts > 1 {
      assert DoubledMinutes(1) == 2 && DoubledMinutes(2) == 4 && DoubledMinutes(3) == 8;
      assert DoubledMinutes(4) == 16 && DoubledMinutes(5) == 32 && DoubledMinutes(6) == 64;
    }
  }

  /** The seconds until a failed intent may be tried again. */
  function RetryDelay(attempts: nat): nat {
    60 * if DoubledMinutes(attempts) <= 60 then DoubledMinutes(attempts) else 60
  }
}
