/** Cents to binary64 and back, with the rounding of every operation. */
module Money {

  /** 2^-53, the largest relative error of a rounded binary64 operation (IEEE 754-2019, section 4.3.1). */
  const UNIT: real := 1.0 / 9007199254740992.0

  /** 2^51. The conversion of so small an integer to binary64 is exact. */
  const SAFE_CENTS: int := 0x8_0000_0000_0000

  function Abs(x: real): real {
    if x >= 0.0 then x else -x
  }

  /** `y` is `x` within one rounding. */
  predicate Rounded(x: real, y: real) {
    Abs(y - x) <= Abs(x) * UNIT
  }

  /** `math.Round`: to the nearest integer, halves away from zero. */
  function RoundHalfAway(x: real): int {
    if x >= 0.0 then (x + 0.5).Floor else -((-x + 0.5).Floor)
  }

  lemma RoundHalfAwayIsNearest(x: real, n: int)
    ensures Abs(RoundHalfAway(x) as real - x) <= 0.5
    ensures Abs(x - n as real) < 0.5 ==> RoundHalfAway(x) == n
    ensures x > 0.0 && x == n as real + 0.5 ==> RoundHalfAway(x) == n + 1
    ensures x < 0.0 && x == n as real - 0.5 ==> RoundHalfAway(x) == n - 1
  {}

  /** `CentsToFloat(c)` may be `dollars`. */
  predicate CentsToFloat(c: int, dollars: real) {
    Rounded(c as real / 100.0, dollars)
  }

  /** `FloatToCents(dollars)` may be `cents`: the product is rounded first, then `math.Round` applies. */
  ghost predicate FloatToCents(dollars: real, cents: int) {
    exists product: real :: Rounded(dollars * 100.0, product) && RoundHalfAway(product) == cents
  }

  /**
   * What the conversion does to any amount at all, whole cents or not: the result is within half a cent of it,
   * up to the one rounding of the product, and it is the exactly rounded amount if the product is exact.
   */
  lemma CentsAreNearest(dollars: real, cents: int)
    ensures FloatToCents(dollars, cents) ==>
              Abs(cents as real - dollars * 100.0) <= 0.5 + Abs(dollars * 100.0) * UNIT
    ensures FloatToCents(dollars, RoundHalfAway(dollars * 100.0))
  {
    assert Rounded(dollars * 100.0, dollars * 100.0);
    if FloatToCents(dollars, cents) {
      var product :| Rounded(dollars * 100.0, product) && RoundHalfAway(product) == cents;
      RoundHalfAwayIsNearest(product, cents);
    }
  }

  /**
   * Exactly which cents an amount may come out as: those of which it is within half a cent once the product has
   * been moved by one rounding. Half a cent itself goes away from zero.
   */
  lemma CentsOfAnAmount(dollars: real, cents: int)
    requires dollars >= 0.0
    ensures FloatToCents(dollars, cents) <==>
            && cents as real - 0.5 <= dollars * 100.0 * (1.0 + UNIT)
            && dollars * 100.0 * (1.0 - UNIT) < cents as real + 0.5
            && cents >= 0
  {
    var least, most := dollars * 100.0 * (1.0 - UNIT), dollars * 100.0 * (1.0 + UNIT);
    if FloatToCents(dollars, cents) {
      var product :| Rounded(dollars * 100.0, product) && RoundHalfAway(product) == cents;
      assert 0.0 <= least <= product <= most;
    }
    if cents as real - 0.5 <= most && least < cents as real + 0.5 && cents >= 0 {
      var product := if least < cents as real - 0.5 then cents as real - 0.5 else least;
      assert Rounded(dollars * 100.0, product) && RoundHalfAway(product) == cents;
    }
  }

  /** A debit and a credit of one size convert to the same cents but for the sign. */
  lemma CentsMirror(dollars: real, cents: int)
    ensures FloatToCents(-dollars, -cents) <==> FloatToCents(dollars, cents)
  {
    if FloatToCents(dollars, cents) {
      CentsMirrorOneWay(dollars, cents);
    }
    if FloatToCents(-dollars, -cents) {
      CentsMirrorOneWay(-dollars, -cents);
    }
  }

  lemma CentsMirrorOneWay(dollars: real, cents: int)
    requires FloatToCents(dollars, cents)
    ensures FloatToCents(-dollars, -cents)
  {
    var product :| Rounded(dollars * 100.0, product) && RoundHalfAway(product) == cents;
    assert Rounded(-dollars * 100.0, -product) && RoundHalfAway(-product) == -cents;
  }

  /** The conversion back is within one rounding of the hundredth part, and may be exact. */
  lemma DollarsAreNearest(c: int, dollars: real)
    ensures CentsToFloat(c, dollars) <==> Abs(100.0 * dollars - c as real) <= Abs(c as real) * UNIT
    ensures CentsToFloat(c, c as real / 100.0)
  {}

  /**
   * Round trip: for every amount below 2^51 cents, converting to a float and back gives the same cents,
   * however the division and the multiplication round within their bound.
   */
  lemma CentsSurvive(c: int, dollars: real, cents: int)
    requires -SAFE_CENTS < c < SAFE_CENTS
    requires CentsToFloat(c, dollars) && FloatToCents(dollars, cents)
    ensures cents == c
  {
    var product :| Rounded(dollars * 100.0, product) && RoundHalfAway(product) == cents;
    assert Abs(product - c as real) < 0.5;
    RoundHalfAwayIsNearest(product, c);
  }

  /** The bound is sharp: at 2^51 cents two roundings of the allowed size already change the amount. */
  lemma BoundIsSharp() returns (dollars: real, cents: int)
    ensures CentsToFloat(SAFE_CENTS, dollars) && FloatToCents(dollars, cents) && cents != SAFE_CENTS
  {
    dollars := SAFE_CENTS as real / 100.0 * (1.0 + UNIT);
    var product := dollars * 100.0 * (1.0 + UNIT);
    cents := RoundHalfAway(product);
    assert Rounded(dollars * 100.0, product);
  }

  /**
   * `y` is no further from `x` than half the spacing `ulp` of the binary64 numbers around it,
   * and `x` is zero or a normal number: its significand has 53 bits at that spacing.
   */
  predicate NearestAt(x: real, y: real, ulp: real) {
    if x == 0.0 then y == 0.0
    else ulp > 0.0 && 4503599627370496.0 * ulp <= Abs(x) && Abs(y - x) <= ulp / 2.0
  }

  /** Rounding to nearest stays within the bound; so amounts survive it. */
  lemma CentsSurviveNearest(c: int, dollars: real, product: real, ulp: real, ulp': real)
    requires -SAFE_CENTS < c < SAFE_CENTS
    requires NearestAt(c as real / 100.0, dollars, ulp) && NearestAt(dollars * 100.0, product, ulp')
    ensures RoundHalfAway(product) == c
  {
    assert Rounded(c as real / 100.0, dollars) && Rounded(dollars * 100.0, product);
    assert FloatToCents(dollars, RoundHalfAway(product));
    CentsSurvive(c, dollars, RoundHalfAway(product));
  }

  /** Conversion never turns an amount negative. */
  lemma CentsKeepSign(dollars: real, cents: int)
    requires dollars >= 0.0 && FloatToCents(dollars, cents)
    ensures cents >= 0
  {
    var product :| Rounded(dollars * 100.0, product) && RoundHalfAway(product) == cents;
    assert product >= 0.0;
  }

  /**
   * A positive amount can still come out as no cents at all: it may when it is below half a cent
   * up to one rounding, and it must when it is below by as much.
   */
  lemma SmallAmountsVanish(dollars: real)
    requires dollars > 0.0
    ensures FloatToCents(dollars, 0) <==> dollars * 100.0 * (1.0 - UNIT) < 0.5
    ensures (forall cents :: FloatToCents(dollars, cents) ==> cents == 0) <==> dollars * 100.0 * (1.0 + UNIT) < 0.5
  {
    var least, most := dollars * 100.0 * (1.0 - UNIT), dollars * 100.0 * (1.0 + UNIT);
    assert Rounded(dollars * 100.0, least) && Rounded(dollars * 100.0, most);
    assert FloatToCents(dollars, RoundHalfAway(least)) && FloatToCents(dollars, RoundHalfAway(most));
    forall cents | FloatToCents(dollars, cents)
      ensures RoundHalfAway(least) <= cents <= RoundHalfAway(most)
    {
      var product :| Rounded(dollars * 100.0, product) && RoundHalfAway(product) == cents;
      assert least <= product <= most;
    }
  }
}
