/** Rounding to whole cents, and the two amount formulas built on it. */
module Money {
  import opened Domain

  /** A seeded draw: a number in [0, 1). */
  type Draw = x: real | 0.0 <= x < 1.0 witness 0.0

  /** Rounding to the nearest cent, ties to even: the default decimal rounding mode. */
  function RoundHalfEven(x: real): int {
    var f := x.Floor;
    var rest := x - f as real;
    if rest < 0.5 then f
    else if rest > 0.5 then f + 1
    else if f % 2 == 0 then f
    else f + 1
  }

  lemma RoundNearest(x: real)
    ensures -0.5 <= RoundHalfEven(x) as real - x <= 0.5
  {
  }

  /** The rounded amount is the nearest whole one, and the even one of two equally near. */
  lemma RoundExactly(x: real, r: int)
    ensures r == RoundHalfEven(x) <==>
              r as real - 0.5 <= x <= r as real + 0.5 && (x == r as real - 0.5 || x == r as real + 0.5 ==> r % 2 == 0)
  {
    var f := x.Floor;
    if r as real - 0.5 <= x <= r as real + 0.5 {
      assert r == f || r == f + 1 || r as real - 0.5 == x;
    }
  }

  const FRACTION_MIN := 0.08
  const FRACTION_MAX := 0.65

  /** The exact part of a balance that a share of it amounts to. */
  function Part(balance: int, share: real): real { balance as real * share }

  lemma PartsOrdered(balance: int, low: real, high: real)
    requires 0 <= balance && low <= high
    ensures Part(balance, low) <= Part(balance, high)
  {
  }

  lemma PartsApart(small: int, large: int, share: real)
    requires small < large && share < 1.0
    ensures Part(large, share) - Part(small, share) < (large - small) as real
  {
    assert Part(large, share) - Part(small, share) == Part(large - small, share);
    PartBelowWhole(large - small, share);
  }

  lemma PartBelowWhole(balance: int, share: real)
    requires 0 < balance && share < 1.0
    ensures Part(balance, share) < balance as real
  {
  }

  /** The part of a balance that a bounded fraction of it amounts to, never below one cent. */
  function FractionOf(balance: int, share: real): int {
    Max(1, Min(balance, RoundHalfEven(Part(balance, share))))
  }

  /** A partial payment: between 8% and 65% of the balance. */
  function Fraction(balance: int, draw: Draw): int {
    FractionOf(balance, FRACTION_MIN + (FRACTION_MAX - FRACTION_MIN) * draw)
  }

  /** Three draws in ten clear the balance, the others pay a part of it. */
  function PaymentAmount(balance: int, draw: Draw): int {
    if draw < 0.30 then balance else Fraction(balance, draw)
  }

  lemma PaymentAmountBounds(balance: int, draw: Draw)
    requires 0 < balance
    ensures 1 <= PaymentAmount(balance, draw) <= balance
  {
  }

  /** One draw decides both the branch and the share, so a partial payment is never the small
      one the bounds would allow: it is at least 25.1% and at most 65% of the balance, up to
      the rounding of half a cent, and never less than a cent. */
  lemma PartialPaymentShare(balance: int, draw: Draw)
    requires 0 < balance && 0.30 <= draw
    ensures var amount := PaymentAmount(balance, draw);
            && Part(balance, 0.251) - 0.5 <= amount as real
            && (amount == 1 || amount as real <= Part(balance, 0.65) + 0.5)
  {
    hide RoundHalfEven, Part;
    var share := FRACTION_MIN + (FRACTION_MAX - FRACTION_MIN) * draw;
    assert 0.251 <= share <= 0.65;
    PartsOrdered(balance, 0.251, share);
    PartsOrdered(balance, share, 0.65);
    PartBelowWhole(balance, 0.251);
    RoundNearest(Part(balance, share));
  }

  lemma RoundGap(x: real, y: real, gap: int)
    requires y - x < gap as real
    ensures RoundHalfEven(y) - RoundHalfEven(x) <= gap
  {
    RoundNearest(x);
    RoundNearest(y);
  }

  /** What a proportional payment leaves behind never shrinks as the balance grows, although
      the payment itself is rounded: rounding adds at most one cent to the difference of two
      amounts, and a share below one keeps that difference below the difference of balances. */
  lemma FractionRemainderMonotone(small: int, large: int, share: real)
    requires 0 < small <= large
    requires 0.0 <= share < 1.0
    ensures small - FractionOf(small, share) <= large - FractionOf(large, share)
  {
    hide RoundHalfEven, Part;
    if small < large {
      PartsApart(small, large, share);
      RoundGap(Part(small, share), Part(large, share), large - small);
    }
  }

  lemma PaymentRemainderMonotone(small: int, large: int, draw: Draw)
    requires 0 < small <= large
    ensures 0 <= small - PaymentAmount(small, draw) <= large - PaymentAmount(large, draw)
  {
    PaymentAmountBounds(small, draw);
    PaymentAmountBounds(large, draw);
    if draw >= 0.30 {
      var share := FRACTION_MIN + (FRACTION_MAX - FRACTION_MIN) * draw;
      assert 0.0 <= share < 1.0;
      FractionRemainderMonotone(small, large, share);
    }
  }

  /** The payment amount in full: three draws in ten clear the balance, the others pay the share
      of it that the draw picks between 8% and 65%, rounded, and a cent at least. */
  lemma PaymentAmountExactly(balance: int, draw: Draw)
    requires 0 < balance
    ensures PaymentAmount(balance, draw) ==
              if draw < 0.30 then balance else Max(1, RoundHalfEven(Part(balance, 0.08 + 0.57 * draw)))
  {
    hide RoundHalfEven, Part;
    if 0.30 <= draw {
      var share := FRACTION_MIN + (FRACTION_MAX - FRACTION_MIN) * draw;
      assert share == 0.08 + 0.57 * draw;
      PartBelowWhole(balance, share);
      RoundNearest(Part(balance, share));
    }
  }
}
