/**
 * `Number(x.toFixed(digits))` of ECMAScript, on exact reals: the value is
 * rounded to `digits` decimals, halves away from zero (toFixed rounds the
 * magnitude and picks the larger candidate on a tie), and values of
 * magnitude at least 10^21 are printed in full and so come back unchanged.
 */
module Rounding {

  /** Above this magnitude toFixed falls back to the plain number text. */
  const FixedLimit: real := 1000000000000000000000.0

  function Pow10(digits: nat): (p: nat)
    ensures p >= 1
  {
    if digits == 0 then 1 else 10 * Pow10(digits - 1)
  }

  /** Half a unit in the last kept decimal place. */
  function HalfUnit(digits: nat): (h: real)
    ensures 0.0 < h <= 0.5
  {
    0.5 / Pow10(digits) as real
  }

  /** The multiple of 1/scale nearest to a non-negative m, the larger one on a tie. */
  function RoundMagnitude(m: real, scale: nat): (r: real)
    requires m >= 0.0 && scale >= 1
    ensures 0.0 <= r
    ensures m - 0.5 / scale as real < r <= m + 0.5 / scale as real
    ensures m == 0.0 ==> r == 0.0
  {
    assert m == 0.0 ==> (m * scale as real + 0.5).Floor == 0;
    FloorBounds(m * scale as real + 0.5, scale as real);
    (m * scale as real + 0.5).Floor as real / scale as real
  }

  lemma FloorBounds(y: real, s: real)
    requires s >= 1.0
    ensures (y - 1.0) / s < y.Floor as real / s <= y / s
  {
    var f := y.Floor as real;
    assert y - 1.0 < f <= y;
  }

  function ToFixed(x: real, digits: nat): (r: real)
    ensures x >= 0.0 ==> r >= 0.0
    ensures x <= 0.0 ==> r <= 0.0
    ensures -FixedLimit < x < FixedLimit ==> -HalfUnit(digits) <= r - x <= HalfUnit(digits)
  {
    if x >= FixedLimit || x <= -FixedLimit then x
    else if x >= 0.0 then RoundMagnitude(x, Pow10(digits))
    else -RoundMagnitude(-x, Pow10(digits))
  }

  /** A multiple of 1/scale is already rounded. */
  lemma RoundMagnitudeExact(m: real, scale: nat, w: int)
    requires m >= 0.0 && scale >= 1
    requires m * scale as real == w as real
    ensures RoundMagnitude(m, scale) == m
  {
    assert RoundMagnitude(m, scale) == (m * scale as real + 0.5).Floor as real / scale as real;
    assert (m * scale as real + 0.5).Floor == w;
    assert (w as real) / scale as real == m;
  }

  lemma WholeTimesScale(k: int, scale: nat)
    ensures (k as real) * (scale as real) == (k * scale) as real
  {
  }

  /** A whole number is left unchanged at any precision. */
  lemma ToFixedWhole(k: int, digits: nat)
    ensures ToFixed(k as real, digits) == k as real
  {
    var p := Pow10(digits);
    if -FixedLimit < k as real < FixedLimit {
      if k >= 0 {
        WholeTimesScale(k, p);
        RoundMagnitudeExact(k as real, p, k * p);
      } else {
        WholeTimesScale(-k, p);
        RoundMagnitudeExact((-k) as real, p, (-k) * p);
      }
    }
  }
}
