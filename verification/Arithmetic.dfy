/** Facts about products and quotients that the solver does not find alone. */
module Arithmetic {
  lemma Scaled(d: nat, x: int, y: int)
    requires x <= y
    ensures d * x <= d * y
  {
    assert d * y - d * x == d * (y - x);
  }

  /** Quotient and remainder are unique. */
  lemma SameQuotient(d: nat, x: int, r: nat, y: int, q: nat)
    requires d * x + r == d * y + q && r < d && q < d
    ensures x == y && r == q
  {
    assert d * (x + 1) == d * x + d && d * (y + 1) == d * y + d;
    if x < y {
      Scaled(d, x + 1, y);
    } else if y < x {
      Scaled(d, y + 1, x);
    }
  }

  lemma Quotient(t: nat, d: nat, q: int, r: nat)
    requires d > 0 && t == d * q + r && r < d
    ensures t % d == r && t / d == q
  {
    SameQuotient(d, q, r, t / d, t % d);
  }

  lemma QuotientPositive(t: nat, d: nat)
    requires 0 < d <= t
    ensures t / d >= 1
  {
    var q := t / d;
    assert t == d * q + t % d;
    if q <= 0 {
      Scaled(d, q, 0);
    }
  }
}
