/**
 * Amounts of money. Balances and amounts are exact reals here; the one place
 * where the tracker rounds is the amount it stores in a transaction record,
 * `round(amount, 2)`.
 */
module Money {

  /** The smallest amount the "Amount" input accepts. */
  const MinAmount: real := 0.01

  /** `x` is a whole number of cents. */
  predicate IsCents(x: real) {
    (x * 100.0).Floor as real == x * 100.0
  }

  /**
   * `round(x, 2)`: the nearest whole number of cents, a tie going to the
   * even cent. The result is a whole number of cents, lies within half a
   * cent of `x`, and is `x` itself when `x` already is one.
   */
  function Round2(x: real): (r: real)
    ensures IsCents(r)
    ensures x - 0.005 <= r <= x + 0.005
    ensures IsCents(x) <==> r == x
  {
    var cents := x * 100.0;
    var low := cents.Floor;
    var frac := cents - low as real;
    var n := if frac < 0.5 then low
             else if frac > 0.5 then low + 1
             else if low % 2 == 0 then low
             else low + 1;
    n as real / 100.0
  }

  /** Rounding twice is rounding once. */
  lemma Round2Idempotent(x: real)
    ensures Round2(Round2(x)) == Round2(x)
  {
  }
}
