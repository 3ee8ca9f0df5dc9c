/** The retry delay and what it adds up to over the whole life of a job. */
module Backoff {
  import opened Types

  function Pow2(n: nat): (r: nat)
    ensures r >= 1
  {
    if n == 0 then 1 else 2 * Pow2(n - 1)
  }

  const CAP_SECONDS: nat := 300

  /** 2^attempt seconds, capped at five minutes.  A negative power of two is below one second,
      which the conversion to a duration truncates to nothing. */
  function BackoffSeconds(attempt: int): nat {
    if attempt < 0 then 0
    else if Pow2(attempt) < CAP_SECONDS then Pow2(attempt) else CAP_SECONDS
  }

  function ExponentialBackoff(attempt: int): Time {
    BackoffSeconds(attempt) * SECOND
  }

  /** Sum of the first n backoffs, in seconds. */
  function TotalBackoff(n: nat): nat {
    if n == 0 then 0 else TotalBackoff(n - 1) + BackoffSeconds(n - 1)
  }

  lemma {:induction false} Pow2Monotone(a: nat, b: nat)
    requires a <= b
    ensures Pow2(a) <= Pow2(b)
  {
    if a < b { Pow2Monotone(a, b - 1); }
  }

  /** A job's backoff never shrinks from one attempt to the next, stays within [1 s, 5 min], and
      is at the cap from the tenth attempt on. */
  lemma BackoffRange(a: nat, b: nat)
    requires a <= b
    ensures 1 <= BackoffSeconds(a) <= BackoffSeconds(b) <= 300
    ensures BackoffSeconds(b) == 300 <==> b >= 9
    ensures ExponentialBackoff(-1 - a) == 0
    ensures ExponentialBackoff(b) == (if b < 9 then Pow2(b) else 300) * 1_000_000_000
  {
    Pow2Monotone(a, b);
    Pow2Closed();
    if b >= 9 { Pow2Monotone(9, b); } else { Pow2Monotone(b, 8); }
  }

  lemma Pow2Closed()
    ensures Pow2(8) == 256 && Pow2(9) == 512
  {
    assert Pow2(3) == 8;
    assert Pow2(6) == 64;
    assert Pow2(8) == 256;
  }

  /** Closed form of the total delay: 2^n - 1 seconds up to nine retries, and five minutes for
      every retry after those. */
  lemma {:induction false} TotalBackoffClosed(n: nat)
    ensures n <= 9 ==> TotalBackoff(n) == Pow2(n) - 1
    ensures n >= 9 ==> TotalBackoff(n) == 511 + 300 * (n - 9)
  {
    if n > 0 {
      TotalBackoffClosed(n - 1);
      BackoffRange(n - 1, n - 1);
      Pow2Closed();
      if n <= 9 { Pow2Monotone(n - 1, 8); }
    }
  }
}
