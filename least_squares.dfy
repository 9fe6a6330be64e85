/**
 * Why the closed-form fit of src/utils/predict.ts is the least-squares
 * line: among all lines a·i + c it has the smallest sum of squared
 * residuals over the series, and (for at least two points) any other line
 * exceeds it by at least the squares of its vertical gap to the fit at
 * positions 0 and 1, so no other line attains that minimum.
 */
module LeastSquares {
  import opened Series
  import opened Predict

  function Square(x: real): (r: real)
    ensures r >= 0.0
  {
    x * x
  }

  /** Σ (yᵢ − (a·i + c))² over the series, positions counted from 0. */
  function SquaredError(data: seq<Point>, a: real, c: real): (r: real)
    ensures r >= 0.0
  {
    if |data| == 0 then 0.0
    else SquaredError(data[..|data| - 1], a, c) + Square(data[|data| - 1].value - Line(a, c, |data| - 1))
  }

  /** Σ (p·i + q)² for i in 0..k−1: the squared gap between two lines over k positions. */
  function Spread(k: nat, p: real, q: real): (r: real)
    ensures r >= 0.0
  {
    if k == 0 then 0.0 else Spread(k - 1, p, q) + Square(Line(p, q, k - 1))
  }

  /** Over two or more positions the gap is at least the gap at positions 0 and 1. */
  lemma {:induction false} SpreadAtLeastTwoPositions(k: nat, p: real, q: real)
    requires k >= 2
    ensures Spread(k, p, q) >= Square(Line(p, q, 0)) + Square(Line(p, q, 1))
  {
    if k == 2 {
      assert Spread(1, p, q) == Square(Line(p, q, 0));
    } else {
      SpreadAtLeastTwoPositions(k - 1, p, q);
    }
  }

  /**
   * The cross term p·(Σi·y − m·Σi² − b·Σi) + q·(Σy − m·Σi − n·b): the
   * correlation of the residuals of m·i + b with the gap p·i + q.
   */
  function Cross(s: Sums, m: real, b: real, p: real, q: real): real
  {
    p * (s.xy - m * s.xx - b * s.x) + q * (s.y - m * s.x - s.n * b)
  }

  /** The gap p·k + q between two lines at position k times the residual y − (m·k + b) there. */
  function GapTimesResidual(m: real, b: real, p: real, q: real, k: nat, y: real): real
  {
    Line(p, q, k) * (y - Line(m, b, k))
  }

  /** Adding the point (k, y) adds the gap times the residual at k to the cross term. */
  lemma CrossStep(s: Sums, m: real, b: real, p: real, q: real, y: real, k: nat)
    requires s.n == k as real
    ensures Cross(Add(s, y), m, b, p, q) == Cross(s, m, b, p, q) + GapTimesResidual(m, b, p, q, k, y)
  {
  }

  lemma CrossStepSeries(data: seq<Point>, m: real, b: real, p: real, q: real)
    requires |data| > 0
    ensures var k := |data| - 1;
      Cross(Accumulate(data), m, b, p, q)
      == Cross(Accumulate(data[..k]), m, b, p, q) + GapTimesResidual(m, b, p, q, k, data[k].value)
  {
    var k := |data| - 1;
    var front, y := data[..k], data[k].value;
    var s := Accumulate(front);
    AccumulateCount(front);
    assert Accumulate(data) == Add(s, y);
    CrossStep(s, m, b, p, q, y, k);
    assert Cross(Accumulate(data), m, b, p, q) == Cross(Add(s, y), m, b, p, q);
  }

  /**
   * The residual of a·i + c at k is the residual of m·i + b minus the gap
   * between the lines, so its square splits as r² − 2·g·r + g².
   */
  lemma ResidualSplit(m: real, b: real, a: real, c: real, k: nat, y: real)
    ensures Square(y - Line(a, c, k))
         == Square(y - Line(m, b, k)) - 2.0 * GapTimesResidual(m, b, a - m, c - b, k, y) + Square(Line(a - m, c - b, k))
  {
    var g, r := Line(a - m, c - b, k), y - Line(m, b, k);
    assert y - Line(a, c, k) == r - g;
    assert (r - g) * (r - g) == r * r - 2.0 * (g * r) + g * g;
  }

  /**
   * The squared error of any line a·i + c, split around another line
   * m·i + b: the error of m·i + b, minus twice the cross term, plus the
   * gap between the two lines.
   */
  lemma {:induction false} SquaredErrorSplit(data: seq<Point>, m: real, b: real, a: real, c: real)
    ensures SquaredError(data, a, c)
         == SquaredError(data, m, b) - 2.0 * Cross(Accumulate(data), m, b, a - m, c - b) + Spread(|data|, a - m, c - b)
  {
    if |data| > 0 {
      var k := |data| - 1;
      var front := data[..k];
      var y := data[k].value;
      SquaredErrorSplit(front, m, b, a, c);
      ResidualSplit(m, b, a, c, k, y);
      CrossStepSeries(data, m, b, a - m, c - b);
    }
  }

  /** A line that solves the normal equations has the least squared error of all lines. */
  lemma NormalSolutionIsOptimal(data: seq<Point>, m: real, b: real, a: real, c: real)
    requires SolvesNormalEquations(Accumulate(data), m, b)
    ensures SquaredError(data, m, b) <= SquaredError(data, a, c)
    ensures |data| >= 2 ==>
      SquaredError(data, a, c) >= SquaredError(data, m, b) + Square(Line(a - m, c - b, 0)) + Square(Line(a - m, c - b, 1))
  {
    var s := Accumulate(data);
    assert s.xy - m * s.xx - b * s.x == 0.0;
    assert s.y - m * s.x - s.n * b == 0.0;
    assert Cross(s, m, b, a - m, c - b) == 0.0;
    SquaredErrorSplit(data, m, b, a, c);
    if |data| >= 2 {
      SpreadAtLeastTwoPositions(|data|, a - m, c - b);
    }
  }

  /**
   * The fitted slope and intercept minimise the squared error over all
   * lines a·i + c, strictly: any other line does worse by at least the
   * squared distance between the two lines at positions 0 and 1, which is
   * zero only when the lines coincide.
   */
  lemma FitIsLeastSquares(data: seq<Point>, a: real, c: real)
    requires |data| >= 2
    ensures SquaredError(data, Slope(data), Intercept(data)) <= SquaredError(data, a, c)
    ensures SquaredError(data, a, c)
         >= SquaredError(data, Slope(data), Intercept(data))
            + Square(Line(a - Slope(data), c - Intercept(data), 0))
            + Square(Line(a - Slope(data), c - Intercept(data), 1))
  {
    NormalEquations(data);
    NormalSolutionIsOptimal(data, Slope(data), Intercept(data), a, c);
  }
}
