/** The split of a price into subtotal and tax, and the rate read back from it
    (billing/services.py, fiscal/services.py). Amounts are integer cents. */
module Pricing {
  /** `ROUND_HALF_UP` of n / d, for n not negative. */
  function HalfUp(n: nat, d: nat): (q: nat)
    requires 0 < d
    ensures 2 * q * d <= 2 * n + d < 2 * (q + 1) * d
  {
    var q := (2 * n + d) / (2 * d);
    Division(2 * n + d, 2 * d);
    q
  }

  /** `ROUND_HALF_EVEN`, the default of `quantize`, of n / d, for n not negative. */
  function HalfEven(n: nat, d: nat): (q: nat)
    requires 0 < d
  {
    var q, r := n / d, n % d;
    if 2 * r < d || (2 * r == d && q % 2 == 0) then q else q + 1
  }

  lemma Division(n: nat, d: nat)
    requires 0 < d
    ensures 0 <= n / d && d * (n / d) <= n < d * (n / d + 1)
  {
    var q := n / d;
    assert n == d * q + n % d;
  }

  lemma Compare(d: nat, a: nat, b: nat)
    ensures d * a < d * (b + 1) ==> a <= b
  {
    if a > b {
      assert d * a == d * (b + 1) + d * (a - b - 1);
      assert 0 <= d * (a - b - 1);
    }
  }

  /** The quotient and remainder are the only ones that fit. */
  lemma QuotientIs(n: nat, d: nat, q: nat, r: nat)
    requires 0 < d && r < d && n == d * q + r
    ensures n / d == q && n % d == r
  {
    Division(n, d);
    assert n == d * (n / d) + n % d;
    assert d * (q + 1) == d * q + d;
    Compare(d, q, n / d);
    Compare(d, n / d, q);
  }

  /** The subtotal of a price, with the tax rate in thousandths. */
  function Subtotal(total: nat, rate: nat): nat { HalfUp(1000 * total, 1000 + rate) }

  function Tax(total: nat, rate: nat): int { total - Subtotal(total, rate) }

  /** The split adds up, no part is negative, and the subtotal with its tax is within half a cent
      (of subtotal) of the price; exactly half a cent is rounded up. */
  lemma SplitAddsUp(total: nat, rate: nat)
    ensures Subtotal(total, rate) + Tax(total, rate) == total && 0 <= Tax(total, rate)
    ensures -(1000 + rate) < 2 * (Subtotal(total, rate) * (1000 + rate) - 1000 * total) <= 1000 + rate
    ensures rate == 0 ==> Tax(total, rate) == 0
  {
    hide HalfUp;
    var s, d := Subtotal(total, rate), 1000 + rate;
    assert 2 * s * d <= 2000 * total + d < 2 * (s + 1) * d;
    Products(s, d, total, rate);
    Compare(d, s, total);
  }

  lemma Products(s: nat, d: nat, total: nat, rate: nat)
    requires d == 1000 + rate
    ensures 2 * s * d == 2 * (d * s) && 2 * (s + 1) * d == 2 * (d * s) + 2 * d && s * d == d * s
    ensures d * (total + 1) >= 1000 * total + d
    ensures rate == 0 ==> d * s == 1000 * s
  {
    assert d * (total + 1) == 1000 * total + total * rate + d;
    assert 0 <= total * rate;
  }

  /** The rate of a CFDI in hundredths, from the amounts of the invoice. */
  function DerivedRate(subtotal: nat, tax: nat): nat { if subtotal == 0 then 0 else HalfEven(100 * tax, subtotal) }

  /** What rounding put into the subtotal, in hundredths of a cent: positive when rounded up. */
  function Excess(total: nat, percent: nat): int { Subtotal(total, 10 * percent) * (100 + percent) - 100 * total }

  lemma ExcessBound(total: nat, percent: nat)
    ensures -(100 + percent) <= 2 * Excess(total, percent) <= 100 + percent
    ensures var s := Subtotal(total, 10 * percent); 100 * Tax(total, 10 * percent) == percent * s - Excess(total, percent)
  {
    hide Subtotal;
    SplitAddsUp(total, 10 * percent);
    PercentProducts(Subtotal(total, 10 * percent), percent);
  }

  lemma PercentProducts(s: nat, percent: nat)
    ensures s * (1000 + 10 * percent) == 10 * (s * (100 + percent))
    ensures s * (100 + percent) == 100 * s + percent * s
  {
    assert s * (1000 + 10 * percent) == 1000 * s + 10 * (s * percent);
  }

  /** An excess of at most half the subtotal; of exactly half only under an even rate. */
  predicate Small(e: int, s: nat, percent: nat) {
    && (2 * e < s || (2 * e == s && percent % 2 == 0))
    && (-2 * e < s || (-2 * e == s && percent % 2 == 0))
  }

  /** Rounding p * s - e over s, for e below s. */
  lemma HalfEvenNear(p: nat, s: nat, e: int, n: nat)
    requires 0 < s && n == p * s - e && -e < s && e < s && (p == 0 ==> e <= 0)
    ensures HalfEven(n, s) == p <==> Small(e, s, p)
  {
    assert p * s == s * p;
    if e <= 0 {
      QuotientIs(n, s, p, -e);
    } else {
      assert p * s == s * (p - 1) + s;
      QuotientIs(n, s, p - 1, s - e);
    }
  }

  lemma NoExcessUntaxed(total: nat)
    ensures Excess(total, 0) == 0
  {
    SplitAddsUp(total, 0);
  }

  /** An excess of the subtotal or more loses the rate. */
  lemma HalfEvenFar(p: nat, s: nat, e: int, n: nat)
    requires 0 < s && n == p * s - e && (s <= e || s <= -e)
    ensures HalfEven(n, s) != p
  {
    Division(n, s);
    assert n == s * (n / s) + n % s && p * s == s * p;
    if s <= -e {
      assert s * (p + 1) == s * p + s;
      BelowQuotient(n, s, p + 1);
    } else {
      Compare(s, n / s + 1, p);
      assert s * (n / s + 1) == s * (n / s) + s;
      FarBelow(n, s, p);
    }
  }

  lemma BelowQuotient(n: nat, d: nat, q: nat)
    requires 0 < d && d * q <= n
    ensures q <= n / d
  {
    Division(n, d);
    Compare(d, q, n / d);
  }

  /** Rounding never goes up past the next whole number. */
  lemma FarBelow(n: nat, s: nat, p: nat)
    requires 0 < s && n + s <= s * p
    ensures HalfEven(n, s) != p
  {
    var q, r := n / s, n % s;
    assert n == s * q + r;
    assert s * (q + 1) == s * q + s;
    if q + 1 == p {
      assert r == 0;
    }
  }

  /** For a whole-percent rate the rate read back is the plan's exactly when the rounding excess is
      at most half the subtotal, and half only under an even rate. */
  lemma RateReadBack(total: nat, percent: nat)
    requires 0 < Subtotal(total, 10 * percent)
    ensures 0 <= Tax(total, 10 * percent)
    ensures DerivedRate(Subtotal(total, 10 * percent), Tax(total, 10 * percent)) == percent
            <==> Small(Excess(total, percent), Subtotal(total, 10 * percent), percent)
  {
    hide Subtotal, HalfEven;
    var s, e := Subtotal(total, 10 * percent), Excess(total, percent);
    SplitAddsUp(total, 10 * percent);
    ExcessBound(total, percent);
    NoExcessUntaxed(total);
    if -e < s && e < s {
      HalfEvenNear(percent, s, e, 100 * Tax(total, 10 * percent));
    } else {
      HalfEvenFar(percent, s, e, 100 * Tax(total, 10 * percent));
    }
  }

  /** Every price the source accepts, at any rate up to one hundred percent, has a subtotal. */
  lemma PositiveSubtotal(total: nat, rate: nat)
    requires 0 < total && rate <= 1000
    ensures 0 < Subtotal(total, rate)
  {
    hide HalfUp;
    var s, d := Subtotal(total, rate), 1000 + rate;
    assert 2 * (1000 * total) + d < 2 * (s + 1) * d;
    assert s == 0 ==> 2 * (s + 1) * d == 2 * d;
  }

  /** Above one peso and the rate, the rate read back is always the plan's. */
  lemma RateIsExact(total: nat, percent: nat)
    requires Subtotal(total, 10 * percent) > 100 + percent
    ensures 0 <= Tax(total, 10 * percent)
    ensures DerivedRate(Subtotal(total, 10 * percent), Tax(total, 10 * percent)) == percent
  {
    hide Subtotal, DerivedRate, Excess;
    SplitAddsUp(total, 10 * percent);
    ExcessBound(total, percent);
    RateReadBack(total, percent);
  }

  /** Below it the rate can be lost: three cents at sixteen percent carry no tax, and at one
      hundred percent the bound is sharp. */
  lemma SmallSubtotalsLoseTheRate()
    ensures Subtotal(3, 160) == 3 && DerivedRate(3, Tax(3, 160)) == 0
    ensures Subtotal(397, 1000) == 199 && DerivedRate(199, Tax(397, 1000)) == 99
  {
  }
}
