/** Decimal rounding as the runtime performs it, over exact reals. */
module Rounding {

  /** Python's `round` to an integer: nearest, ties to the even neighbour. */
  function RoundHalfEven(x: real): (n: int)
    ensures -0.5 <= x - n as real <= 0.5
    ensures x - n as real == 0.5 || x - n as real == -0.5 ==> n % 2 == 0
  {
    var low := x.Floor;
    var rest := x - low as real;
    if rest < 0.5 then low
    else if rest > 0.5 then low + 1
    else if low % 2 == 0 then low
    else low + 1
  }

  lemma RoundHalfEvenMonotone(x: real, y: real)
    requires x <= y
    ensures RoundHalfEven(x) <= RoundHalfEven(y)
  {
  }

  lemma RoundHalfEvenOfInteger(n: int)
    ensures RoundHalfEven(n as real) == n
  {
    assert (n as real).Floor == n;
  }

  /** A price that is a whole number of cents. */
  predicate WholeCents(value: real) {
    value == RoundHalfEven(value * 100.0) as real / 100.0
  }

  /** `round(value + 1e-9, 2)`: the two-decimal price the broker payload carries. */
  function RoundPrice(value: real): (price: real)
    ensures WholeCents(price)
  {
    var cents := RoundHalfEven((value + 0.000000001) * 100.0);
    RoundHalfEvenOfInteger(cents);
    cents as real / 100.0
  }

  /** Rounding never lifts a price past a whole-cent bound, and keeps whole cents. */
  lemma RoundPriceBelowCents(value: real, bound: real)
    requires value <= bound && WholeCents(bound)
    ensures RoundPrice(value) <= bound
  {
    var cents := RoundHalfEven(bound * 100.0);
    assert bound * 100.0 == cents as real;
    var lifted := RoundHalfEven((value + 0.000000001) * 100.0);
    assert (value + 0.000000001) * 100.0 <= cents as real + 0.0000001;
    assert lifted <= cents;
  }

  lemma RoundPriceOfCents(value: real)
    requires WholeCents(value)
    ensures RoundPrice(value) == value
  {
    var cents := RoundHalfEven(value * 100.0);
    assert value * 100.0 == cents as real;
    var shifted := RoundHalfEven((value + 0.000000001) * 100.0);
    assert (value + 0.000000001) * 100.0 == cents as real + 0.0000001;
    assert shifted == cents;
  }
}
