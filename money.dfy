/** Cent rounding, as the source writes it with `Math.round(x * 100) / 100`. */
module Money {

  /** `Math.round` rounds half-way cases up, so it is `Floor(y + 1/2)`. */
  function RoundCents(x: real): (r: real)
    ensures x - 0.005 < r <= x + 0.005
  {
    var n := (x * 100.0 + 0.5).Floor;
    assert n as real <= x * 100.0 + 0.5 < n as real + 1.0;
    n as real / 100.0
  }

  lemma RoundCentsNonNegative(x: real)
    requires x >= 0.0
    ensures RoundCents(x) >= 0.0
  {
  }

  /** Rounding to cents preserves order (not strictly). */
  lemma RoundCentsMonotone(x: real, y: real)
    requires x <= y
    ensures RoundCents(x) <= RoundCents(y)
  {
    var a := (x * 100.0 + 0.5).Floor;
    var b := (y * 100.0 + 0.5).Floor;
    assert a as real <= x * 100.0 + 0.5 <= y * 100.0 + 0.5 < b as real + 1.0;
    assert a <= b;
  }

  function Max(a: real, b: real): real { if a >= b then a else b }

  /** The value of `amount` units at `price`; products and quotients of two variables are
      named so that every use of them is the same term. */
  function Notional(amount: real, price: real): real { amount * price }

  /** How many units `value` buys at `price`. */
  function Per(value: real, price: real): real
    requires price != 0.0
  {
    value / price
  }
  function Min(a: real, b: real): real { if a <= b then a else b }
}
