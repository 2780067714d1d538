/** Coupon discounts of backend/app/services/coupon_service.py. Money is counted in hundredths, as
    the Numeric(12, 2) columns store it; an exact discount is counted in ten-thousandths of a
    hundredth, where `base * value / 100` is a whole number. */
module CouponAmounts {
  import opened Basics

  datatype CouponKind = Percentage | FixedAmount

  const SCALE := 10_000

  /** Decimal.quantize with the default ROUND_HALF_EVEN, from scaled to whole hundredths. */
  function HalfEven(n: int): int {
    var q, r := n / SCALE, n % SCALE;
    if 2 * r < SCALE || (2 * r == SCALE && q % 2 == 0) then q else q + 1
  }

  /** What rounding half to even means: a nearest whole number, the even one on a tie. */
  predicate IsNearestEven(n: int, r: int) {
    && 2 * (r * SCALE - n) <= SCALE
    && 2 * (n - r * SCALE) <= SCALE
    && (2 * (r * SCALE - n) == SCALE || 2 * (n - r * SCALE) == SCALE ==> r % 2 == 0)
  }

  lemma HalfEvenIsNearest(n: int, r: int)
    ensures IsNearestEven(n, r) <==> r == HalfEven(n)
  {
    var q, m := n / SCALE, n % SCALE;
    assert n == q * SCALE + m;
  }

  lemma HalfEvenMonotone(n: int, m: int)
    requires n <= m
    ensures HalfEven(n) <= HalfEven(m)
  {
    assert n / SCALE <= m / SCALE;
    assert n / SCALE == m / SCALE ==> n % SCALE <= m % SCALE;
  }

  /** Cuts a nominal discount by the coupon's ceiling and clamps it to [0, base]. */
  function Clamp(nominal: int, ceiling: Option<int>, base: int): int {
    var cut := if ceiling.Some? then Min(nominal, ceiling.value * SCALE) else nominal;
    var positive := if cut < 0 then 0 else cut;
    if positive > base * SCALE then base * SCALE else positive
  }

  /** The discount before rounding. */
  function ExactDiscount(kind: CouponKind, value: int, ceiling: Option<int>, base: int): int {
    Clamp(if kind.FixedAmount? then value * SCALE else base * value, ceiling, base)
  }

  /** `_calculate_discount_amount`. */
  function Discount(kind: CouponKind, value: int, ceiling: Option<int>, base: int): int {
    HalfEven(ExactDiscount(kind, value, ceiling, base))
  }

  /** The discount never exceeds the base, is never negative, and is off the exact clamped value by
      at most half a hundredth. */
  lemma DiscountWithinBase(kind: CouponKind, value: int, ceiling: Option<int>, base: int)
    requires base >= 0
    ensures 0 <= Discount(kind, value, ceiling, base) <= base
    ensures IsNearestEven(ExactDiscount(kind, value, ceiling, base), Discount(kind, value, ceiling, base))
  {
    var exact := ExactDiscount(kind, value, ceiling, base);
    HalfEvenIsNearest(exact, HalfEven(exact));
    HalfEvenMonotone(0, exact);
    HalfEvenMonotone(exact, base * SCALE);
    HalfEvenIsNearest(base * SCALE, base);
  }

  lemma ClampMonotone(nominal: int, higher: int, ceiling: Option<int>, base: int, dearer: int)
    requires 0 <= base <= dearer
    requires nominal <= higher || nominal <= 0
    ensures Clamp(nominal, ceiling, base) <= Clamp(higher, ceiling, dearer)
  {
  }

  lemma ProductMonotone(base: int, dearer: int, value: int)
    requires 0 <= base <= dearer
    ensures base * value <= dearer * value || base * value <= 0
  {
    if value >= 0 {
      assert 0 <= (dearer - base) * value;
    } else {
      assert base * value <= 0;
    }
  }

  /** A dearer booking never gets a smaller discount from the same coupon. */
  lemma DiscountMonotone(kind: CouponKind, value: int, ceiling: Option<int>, base: int, dearer: int)
    requires 0 <= base <= dearer
    ensures Discount(kind, value, ceiling, base) <= Discount(kind, value, ceiling, dearer)
  {
    ProductMonotone(base, dearer, value);
    if kind.FixedAmount? {
      ClampMonotone(value * SCALE, value * SCALE, ceiling, base, dearer);
    } else {
      ClampMonotone(base * value, dearer * value, ceiling, base, dearer);
    }
    HalfEvenMonotone(ExactDiscount(kind, value, ceiling, base), ExactDiscount(kind, value, ceiling, dearer));
  }

  /** An uncapped percentage between 0 and 100 is charged exactly when it comes out in whole
      hundredths. */
  lemma PercentageExactWhenWhole(value: int, base: int)
    requires 0 <= base && 0 <= value <= SCALE
    ensures Discount(Percentage, value, None, base) * SCALE == base * value
       <==> (base * value) % SCALE == 0
  {
    ShareOf(base, value);
    WholeIsExact(base * value, base);
  }

  lemma ShareOf(base: int, value: int)
    requires 0 <= base && 0 <= value <= SCALE
    ensures 0 <= base * value <= base * SCALE
  {
    assert 0 <= base * (SCALE - value);
    assert base * (SCALE - value) == base * SCALE - base * value;
  }

  lemma WholeIsExact(n: int, base: int)
    requires 0 <= n <= base * SCALE
    ensures Clamp(n, None, base) == n
    ensures HalfEven(n) * SCALE == n <==> n % SCALE == 0
  {
  }

  // ---- what a discount is, whatever the steps that compute it ----

  /** `least` is the least of a nominal discount, the ceiling if there is one, and the whole base. */
  predicate IsLeast(least: int, nominal: int, ceiling: Option<int>, base: int) {
    && least <= nominal && least <= base && (ceiling.Some? ==> least <= ceiling.value)
    && (least == nominal || least == base || ceiling == Some(least))
  }

  /** The ceiling in ten-thousandths of a hundredth. */
  function Scaled(ceiling: Option<int>): Option<int> {
    if ceiling.None? then None else Some(ceiling.value * SCALE)
  }

  /** `d` is the nearest-even hundredth of the least of `nominal`, ceiling and base, or of zero if that
      least is negative. */
  ghost predicate IsDiscount(nominal: int, ceiling: Option<int>, base: int, d: int) {
    exists least |
      IsLeast(least, nominal, Scaled(ceiling), base * SCALE) :: IsNearestEven(if least < 0 then 0 else least, d)
  }

  lemma LeastIsUnique(a: int, b: int, nominal: int, ceiling: Option<int>, base: int)
    requires IsLeast(a, nominal, ceiling, base) && IsLeast(b, nominal, ceiling, base)
    ensures a == b
  {
  }

  lemma ClampIsLeast(nominal: int, ceiling: Option<int>, base: int, least: int)
    requires base >= 0 && IsLeast(least, nominal, Scaled(ceiling), base * SCALE)
    ensures Clamp(nominal, ceiling, base) == if least < 0 then 0 else least
  {
  }

  /** The discount is this one number: a percentage `value` (in hundredths of a percent) is nominally
      base * value ten-thousandths of a hundredth, a fixed coupon its value. */
  lemma DiscountIff(kind: CouponKind, value: int, ceiling: Option<int>, base: int, d: int)
    requires base >= 0
    ensures d == Discount(kind, value, ceiling, base) <==>
            IsDiscount(if kind == Percentage then base * value else value * 10_000, ceiling, base, d)
  {
    var nominal := if kind == Percentage then base * value else value * 10_000;
    var uncut := Min(nominal, base * SCALE);
    var least := if ceiling.Some? then Min(uncut, ceiling.value * SCALE) else uncut;
    assert IsLeast(least, nominal, Scaled(ceiling), base * SCALE);
    ClampIsLeast(nominal, ceiling, base, least);
    HalfEvenIsNearest(if least < 0 then 0 else least, d);
    if IsDiscount(nominal, ceiling, base, d) {
      var other :| IsLeast(other, nominal, Scaled(ceiling), base * SCALE)
                   && IsNearestEven(if other < 0 then 0 else other, d);
      LeastIsUnique(other, least, nominal, Scaled(ceiling), base * SCALE);
    }
  }

  /** No discount is above the coupon's ceiling; a negative ceiling leaves nothing. */
  lemma DiscountWithinCeiling(kind: CouponKind, value: int, ceiling: int, base: int)
    requires base >= 0
    ensures Discount(kind, value, Some(ceiling), base) <= (if ceiling < 0 then 0 else ceiling)
  {
    var bound := if ceiling < 0 then 0 else ceiling;
    HalfEvenMonotone(ExactDiscount(kind, value, Some(ceiling), base), bound * SCALE);
    HalfEvenIsNearest(bound * SCALE, bound);
  }

  /** A fixed coupon gives exactly the least of its value, its ceiling and the base, or nothing if that is
      negative. */
  lemma FixedIsLeast(value: int, ceiling: Option<int>, base: int, least: int)
    requires base >= 0 && IsLeast(least, value, ceiling, base)
    ensures Discount(FixedAmount, value, ceiling, base) == if least < 0 then 0 else least
  {
    ClampIsLeast(value * SCALE, ceiling, base, least * SCALE);
    HalfEvenIsNearest(if least < 0 then 0 else least * SCALE, if least < 0 then 0 else least);
  }

  /** A percentage that neither the ceiling nor the base cuts is base * value / 10_000, rounded to the
      nearest-even hundredth. */
  lemma PercentageUncut(value: int, ceiling: Option<int>, base: int, d: int)
    requires base >= 0 && 0 <= value <= SCALE && (ceiling.Some? ==> base * value <= ceiling.value * SCALE)
    ensures d == Discount(Percentage, value, ceiling, base) <==> IsNearestEven(base * value, d)
  {
    ShareOf(base, value);
    ClampIsLeast(base * value, ceiling, base, base * value);
    HalfEvenIsNearest(base * value, d);
  }
}
