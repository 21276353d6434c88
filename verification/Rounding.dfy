/** Decimal amounts as the costing engine handles them: exact multiples of a rate,
    and rounding to whole units with halves away from zero (ROUND_HALF_UP). */
module Rounding {

  function Round(x: real): (n: int)
    ensures x >= 0.0 ==> -0.5 < n as real - x <= 0.5
    ensures x < 0.0 ==> -0.5 <= n as real - x < 0.5
  {
    if x >= 0.0 then (x + 0.5).Floor else -((0.5 - x).Floor)
  }

  /** The product n * r, built by addition so that proofs about it stay linear. */
  function Times(n: int, r: real): real
    decreases if n < 0 then -n else n
  {
    if n == 0 then 0.0 else if n > 0 then Times(n - 1, r) + r else Times(n + 1, r) - r
  }

  lemma {:induction false} TimesIsProduct(n: int, r: real)
    ensures Times(n, r) == n as real * r
    decreases if n < 0 then -n else n
  {
    if n > 0 {
      TimesIsProduct(n - 1, r);
      assert (n - 1) as real * r == n as real * r - r;
    } else if n < 0 {
      TimesIsProduct(n + 1, r);
      assert (n + 1) as real * r == n as real * r + r;
    }
  }

  lemma {:induction false} TimesSum(a: nat, b: nat, r: real)
    ensures Times(a + b, r) == Times(a, r) + Times(b, r)
  {
    if a > 0 { TimesSum(a - 1, b, r); }
  }

  lemma {:induction false} TimesShift(n: nat, r: real, e: real)
    ensures Times(n, r + e) == Times(n, r) + Times(n, e)
  {
    if n > 0 { TimesShift(n - 1, r, e); }
  }

  /** More of a non-negative rate is worth at least as much. */
  lemma {:induction false} TimesOrder(less: int, more: int, r: real)
    requires less <= more && r >= 0.0
    ensures Times(less, r) <= Times(more, r)
    decreases more - less
  {
    if less < more { TimesOrder(less, more - 1, r); }
  }

  lemma {:induction false} TimesNegated(n: nat, r: real)
    ensures Times(n, -r) == -Times(n, r)
  {
    if n > 0 { TimesNegated(n - 1, r); }
  }

  lemma {:induction false} TimesRateOrder(n: nat, r: real, s: real)
    requires r <= s
    ensures Times(n, r) <= Times(n, s)
  {
    if n > 0 { TimesRateOrder(n - 1, r, s); }
  }

  /** A whole number rounds to itself, so values already stored survive re-rounding. */
  lemma {:induction false} RoundWhole(n: int)
    ensures Round(n as real) == n
  {
  }

  /** Rounding is the only whole number strictly within one half. */
  lemma {:induction false} RoundUnique(x: real, n: int)
    requires -0.5 < n as real - x < 0.5
    ensures Round(x) == n
  {
  }

  lemma {:induction false} RoundMonotone(x: real, y: real)
    requires x <= y
    ensures Round(x) <= Round(y)
  {
  }
}
