/** Capped exponential backoff with multiplicative jitter
    (`compute_backoff` in scraping/scraping_price.py). */
module Backoff {

  const MaxRetries: nat := 6
  const BaseBackoffSeconds: real := 2.0
  const MaxBackoffSeconds: real := 60.0

  function Pow2(n: nat): (r: nat)
    ensures r >= 1
  {
    if n == 0 then 1 else 2 * Pow2(n - 1)
  }

  /** Python's `2 ** e` for any integer exponent (a fraction when e < 0). */
  function Exp2(e: int): (r: real)
    ensures r > 0.0
  {
    if e >= 0 then Pow2(e) as real else 1.0 / (Pow2(-e) as real)
  }

  function MinReal(a: real, b: real): real {
    if a <= b then a else b
  }

  /** `min(MAX_BACKOFF_SECONDS, BASE_BACKOFF_SECONDS * 2 ** (attempt - 1))` */
  function BaseDelay(attempt: int): (r: real)
    ensures 0.0 < r <= MaxBackoffSeconds
  {
    MinReal(MaxBackoffSeconds, BaseBackoffSeconds * Exp2(attempt - 1))
  }

  /** The delay for one attempt; `u` is the factor `random.uniform(0.25, 0.75)` drew. */
  function ComputeBackoff(attempt: int, u: real): (r: real)
    requires 0.25 <= u <= 0.75
    ensures BaseDelay(attempt) <= r <= MaxBackoffSeconds
    ensures MinReal(MaxBackoffSeconds, 1.25 * BaseDelay(attempt)) <= r
    ensures r <= 1.75 * BaseDelay(attempt)
  {
    Jittered(BaseDelay(attempt), u)
  }

  /** `min(MAX_BACKOFF_SECONDS, base + u * base)` */
  function Jittered(base: real, u: real): (r: real)
    requires 0.0 < base <= MaxBackoffSeconds && 0.25 <= u <= 0.75
    ensures base <= r <= MaxBackoffSeconds
    ensures MinReal(MaxBackoffSeconds, 1.25 * base) <= r <= 1.75 * base
  {
    var jitter := u * base;
    JitterRange(base, u);
    MinReal(MaxBackoffSeconds, base + jitter)
  }

  lemma JitterRange(base: real, u: real)
    requires 0.0 < base && 0.25 <= u <= 0.75
    ensures 0.25 * base <= u * base <= 0.75 * base
  {
    ScaleMonotone(0.25, u, base);
    ScaleMonotone(u, 0.75, base);
  }

  lemma ScaleMonotone(a: real, b: real, c: real)
    requires a <= b && 0.0 <= c
    ensures a * c <= b * c
    ensures c * a <= c * b
  {
  }

  lemma ReciprocalAntitone(p: real, q: real)
    requires 0.0 < q <= p
    ensures 1.0 / p <= 1.0 / q
  {
  }

  lemma {:induction false} Pow2Monotone(m: nat, n: nat)
    requires m <= n
    ensures Pow2(m) <= Pow2(n)
    decreases n
  {
    if m < n {
      Pow2Monotone(m, n - 1);
    }
  }

  lemma {:induction false} Exp2Monotone(a: int, b: int)
    requires a <= b
    ensures Exp2(a) <= Exp2(b)
  {
    if 0 <= a {
      Pow2Monotone(a, b);
    } else if 0 <= b {
      ReciprocalAntitone(Pow2(-a) as real, 1.0);
    } else {
      Pow2Monotone(-b, -a);
      ReciprocalAntitone(Pow2(-a) as real, Pow2(-b) as real);
    }
  }

  /** For a fixed jitter factor the delay never shrinks as attempts grow. */
  lemma ComputeBackoffMonotone(a: int, b: int, u: real)
    requires a <= b && 0.25 <= u <= 0.75
    ensures ComputeBackoff(a, u) <= ComputeBackoff(b, u)
  {
    BaseDelayMonotone(a, b);
    JitteredMonotone(BaseDelay(a), BaseDelay(b), u);
  }

  lemma BaseDelayMonotone(a: int, b: int)
    requires a <= b
    ensures BaseDelay(a) <= BaseDelay(b)
  {
    Exp2Monotone(a - 1, b - 1);
  }

  lemma JitteredMonotone(x: real, y: real, u: real)
    requires 0.0 < x <= y <= MaxBackoffSeconds && 0.25 <= u <= 0.75
    ensures Jittered(x, u) <= Jittered(y, u)
  {
    ScaleMonotone(x, y, u);
    assert u * x <= u * y;
    assert x + u * x <= y + u * y;
    assert MinReal(MaxBackoffSeconds, x + u * x) <= MinReal(MaxBackoffSeconds, y + u * y);
    assert Jittered(x, u) == MinReal(MaxBackoffSeconds, x + u * x);
    assert Jittered(y, u) == MinReal(MaxBackoffSeconds, y + u * y);
  }

  /** From the sixth attempt on the delay is exactly the ceiling, whatever the jitter. */
  lemma BackoffPlateau(attempt: int, u: real)
    requires attempt >= 6 && 0.25 <= u <= 0.75
    ensures BaseDelay(attempt) == MaxBackoffSeconds
    ensures ComputeBackoff(attempt, u) == MaxBackoffSeconds
  {
    Pow2Monotone(5, attempt - 1);
    assert Pow2(5) == 32;
  }

  /** Before the sixth attempt the delay stays strictly below the ceiling. */
  lemma BackoffBelowPlateau(attempt: int, u: real)
    requires attempt <= 5 && 0.25 <= u <= 0.75
    ensures ComputeBackoff(attempt, u) < MaxBackoffSeconds
  {
    Exp2Monotone(attempt - 1, 4);
    assert Exp2(4) == 16.0 by { assert Pow2(4) == 16; }
    assert BaseDelay(attempt) <= 32.0;
  }
}
