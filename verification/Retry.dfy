/** The retry policy of every activity. */
module Retry {
  const MAXIMUM_ATTEMPTS := 8
  const INITIAL_INTERVAL := 1
  const BACKOFF_COEFFICIENT := 2
  const MAXIMUM_INTERVAL := 60

  /** Seconds between the k-th failed attempt and the next, before the cap. */
  function Uncapped(k: nat): nat
    requires k > 0
  {
    if k == 1 then INITIAL_INTERVAL else BACKOFF_COEFFICIENT * Uncapped(k - 1)
  }

  function Interval(k: nat): nat
    requires k > 0
  {
    if Uncapped(k) < MAXIMUM_INTERVAL then Uncapped(k) else MAXIMUM_INTERVAL
  }

  /** Seconds spent waiting when n attempts have failed and were retried. */
  function Waited(n: nat): nat {
    if n == 0 then 0 else Waited(n - 1) + Interval(n)
  }

  /** The first wait is a second, and each next one twice as long, up to a minute. */
  lemma {:induction false} WaitsDouble(k: nat)
    requires k > 0
    ensures Interval(1) == 1
    ensures Interval(k + 1) == if 2 * Interval(k) < 60 then 2 * Interval(k) else 60
  {
  }

  /** Before its last attempt an activity has waited 123 seconds in all, and never more
      than that. */
  lemma {:induction false} BackoffIsBounded(n: nat)
    requires n < MAXIMUM_ATTEMPTS
    ensures Waited(n) <= 123 && Waited(MAXIMUM_ATTEMPTS - 1) == 123
  {
    assert Uncapped(1) == 1 && Uncapped(2) == 2 && Uncapped(3) == 4 && Uncapped(4) == 8;
    assert Uncapped(5) == 16 && Uncapped(6) == 32 && Uncapped(7) == 64;
    assert Waited(1) == 1 && Waited(2) == 3 && Waited(3) == 7 && Waited(4) == 15;
    assert Waited(5) == 31 && Waited(6) == 63 && Waited(7) == 123;
  }
}
