/** The drift limit is exact: above 100,000 units there is always a value that a
    7dp rate cannot give back. */
module InventoryDriftLimit {
  import opened Rounding
  import opened InventoryCosting
  import opened InventoryRuns

  /** Bezout by subtraction: x*a - y*b is a common divisor of x and y. */
  lemma {:induction false} Bezout(x: nat, y: nat) returns (a: nat, b: nat, g: nat, m: nat, k: nat)
    requires x > 0 && y > 0
    ensures g > 0 && m > 0 && k > 0 && x * a - y * b == g && x == g * m && y == g * k
    decreases x + y
  {
    if x == y {
      a, b, g, m, k := 1, 0, x, 1, 1;
    } else if x > y {
      a, b, g, m, k := Bezout(x - y, y);
      assert (x - y) * a == x * a - y * a;
      assert y * (a + b) == y * a + y * b;
      assert g * (m + k) == g * m + g * k;
      b, m := a + b, m + k;
    } else {
      a, b, g, m, k := Bezout(x, y - x);
      assert (y - x) * b == y * b - x * b;
      assert x * (a + b) == x * a + x * b;
      assert g * (m + k) == g * m + g * k;
      a, k := a + b, m + k;
    }
  }

  /** A value whose average lies just far enough below a whole 7dp count that the
      rate stored for it is worth more than the value. */
  lemma {:induction false} DriftingValue(qty: nat) returns (value: nat, stored: nat, over: nat)
    requires qty > DRIFT_LIMIT
    ensures qty * stored == value * DRIFT_LIMIT + over && DRIFT_LIMIT <= 2 * over <= qty
    ensures StoredRate(PerUnit(value, qty)) == stored && Worth(qty, RateOf(stored)) > value
  {
    var a, b, g, m, k := Bezout(qty, DRIFT_LIMIT);
    Ordered(g, m, k);
    var h := m / 2;
    ScaledOrder(g, k, 2 * h);
    ScaledOrder(g, 2 * h, m);
    value, stored, over := b * h, a * h, g * h;
    Scaled(qty, a, DRIFT_LIMIT, b, g, h);
    assert g * (2 * h) == 2 * over;
    RoundsToStored(qty, value, stored, over);
    DriftsByACent(qty, value, stored, over);
  }

  lemma {:induction false} Ordered(g: nat, m: nat, k: nat)
    requires g > 0 && g * m > g * k
    ensures m > k
  {
    if m <= k { ScaledOrder(g, m, k); }
  }

  lemma {:induction false} ScaledOrder(g: nat, a: nat, b: nat)
    requires a <= b
    ensures g * a <= g * b
  {
  }

  lemma {:induction false} Scaled(x: nat, a: nat, y: nat, b: nat, g: nat, h: nat)
    requires x * a - y * b == g
    ensures x * (a * h) == (b * h) * y + g * h
  {
    assert (x * a) * h == (g + y * b) * h == g * h + (y * b) * h;
  }

  lemma {:induction false} RoundsToStored(qty: nat, value: nat, stored: nat, over: nat)
    requires qty > 0 && qty * stored == value * DRIFT_LIMIT + over && 0 < over && 2 * over <= qty
    ensures StoredRate(PerUnit(value, qty)) == stored
  {
    var exact := PerUnit(value, qty) * RATE_SCALE;
    var gap := over as real / qty as real;
    assert gap * qty as real == over as real;
    assert exact * qty as real == value as real * RATE_SCALE;
    assert (exact + gap) * qty as real == value as real * RATE_SCALE + over as real;
    assert (qty * stored) as real == stored as real * qty as real;
    assert exact + gap == stored as real;
    assert 0.0 < gap && gap + gap <= 1.0;
  }

  lemma {:induction false} DriftsByACent(qty: nat, value: nat, stored: nat, over: nat)
    requires qty * stored == value * DRIFT_LIMIT + over && 2 * over >= DRIFT_LIMIT
    ensures Worth(qty, RateOf(stored)) > value
  {
    TimesIsProduct(qty, RateOf(stored));
    assert (qty * stored) as real == qty as real * stored as real;
    assert qty as real * RateOf(stored) == (qty * stored) as real / RATE_SCALE;
    assert qty as real * RateOf(stored) >= value as real + 0.5;
  }

  /** Every value survives being held as a 7dp rate exactly up to the limit. */
  lemma {:induction false} DriftLimitIsExact(qty: nat)
    requires qty > 0
    ensures (forall value: nat :: Worth(qty, RateOf(StoredRate(PerUnit(value, qty)))) == value)
            <==> qty <= DRIFT_LIMIT
  {
    if qty <= DRIFT_LIMIT {
      forall value: nat
        ensures Worth(qty, RateOf(StoredRate(PerUnit(value, qty)))) == value
      {
        StoredAverageReproduces(qty, value);
      }
    } else {
      var value, stored, over := DriftingValue(qty);
    }
  }
}
