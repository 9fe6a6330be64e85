/**
 * Least-squares linear trend of a monthly series and its forward
 * projection (src/utils/predict.ts and the two inline copies of it).
 * The x-coordinate of a point is its 0-based position, never its label.
 */
module Predict {
  import opened Series
  import opened Rounding

  /** The count and the four running sums of the accumulation loop: n, Σi, Σy, Σi·y and Σi². */
  datatype Sums = Sums(n: real, x: real, y: real, xy: real, xx: real)

  /** The sums over a series, accumulated point by point in index order. */
  function Accumulate(data: seq<Point>): Sums
  {
    if |data| == 0 then Sums(0.0, 0.0, 0.0, 0.0, 0.0)
    else Add(Accumulate(data[..|data| - 1]), data[|data| - 1].value)
  }

  /** One iteration of the loop: the point at index n (the running count) has value v. */
  function Add(s: Sums, v: real): Sums
  {
    Sums(s.n + 1.0, s.x + s.n, s.y + v, s.xy + s.n * v, s.xx + s.n * s.n)
  }

  /** The count is the length, so the index of the point being added is the running count. */
  lemma {:induction false} AccumulateCount(data: seq<Point>)
    ensures Accumulate(data).n == |data| as real
  {
    if |data| > 0 {
      AccumulateCount(data[..|data| - 1]);
    }
  }

  /** The divisor of the slope formula, n·Σi² − (Σi)². */
  function Det(s: Sums): real
  {
    s.n * s.xx - s.x * s.x
  }

  /** The closed-form slope (nΣxy − ΣxΣy) / (nΣx² − (Σx)²). */
  function SlopeOf(s: Sums): real
    requires Fittable(s)
  {
    (s.n * s.xy - s.x * s.y) / Det(s)
  }

  /** The closed-form intercept (Σy − slope·Σx) / n. */
  function InterceptOf(s: Sums): real
    requires Fittable(s)
  {
    (s.y - SlopeOf(s) * s.x) / s.n
  }

  lemma MulDiv(x: real, d: real)
    requires d != 0.0
    ensures d * (x / d) == x
  {
  }

  /**
   * The two normal equations of least squares at slope m and intercept b:
   * Σy = m·Σi + n·b and Σi·y = m·Σi² + b·Σi (the residuals sum to zero and
   * are uncorrelated with the index).
   */
  ghost predicate SolvesNormalEquations(s: Sums, m: real, b: real)
  {
    s.y == m * s.x + s.n * b && s.xy == m * s.xx + b * s.x
  }

  /** The closed-form fit on any sums solves both normal equations of least squares. */
  lemma NormalEquationsOf(s: Sums)
    requires Fittable(s)
    ensures SolvesNormalEquations(s, SlopeOf(s), InterceptOf(s))
  {
    var d, m, c := Det(s), SlopeOf(s), InterceptOf(s);
    MulDiv(s.n * s.xy - s.x * s.y, d);
    MulDiv(s.y - m * s.x, s.n);
    assert m * d == s.n * s.xy - s.x * s.y;
    assert s.n * c == s.y - m * s.x;
    assert s.n * (m * s.xx + c * s.x) == m * d + s.x * s.y;
  }

  /** The index sums are fixed by the count: Σi = n(n−1)/2 and Σi² = (n−1)n(2n−1)/6. */
  ghost predicate IndexSumsOf(s: Sums)
  {
    && 2.0 * s.x == s.n * (s.n - 1.0)
    && 6.0 * s.xx == (s.n - 1.0) * s.n * (2.0 * s.n - 1.0)
  }

  lemma IndexSumsStep(s: Sums, v: real)
    requires IndexSumsOf(s)
    ensures IndexSumsOf(Add(s, v))
  {
  }

  /** The x-values are the positions 0..n−1, whatever the month labels say. */
  lemma {:induction false} IndexSums(data: seq<Point>)
    ensures IndexSumsOf(Accumulate(data))
  {
    if |data| > 0 {
      var front := data[..|data| - 1];
      IndexSums(front);
      IndexSumsStep(Accumulate(front), data[|data| - 1].value);
    }
  }

  /** On index sums the divisor is n²(n²−1)/12: positive for n ≥ 2, zero for n ∈ {0, 1}. */
  lemma DetOfIndexSums(s: Sums)
    requires IndexSumsOf(s)
    ensures 12.0 * Det(s) == s.n * s.n * (s.n * s.n - 1.0)
    ensures s.n >= 2.0 ==> Det(s) > 0.0
    ensures s.n == 0.0 || s.n == 1.0 ==> Det(s) == 0.0
  {
    var n := s.n;
    assert 12.0 * (n * s.xx) == 2.0 * n * (6.0 * s.xx);
    assert 12.0 * (s.x * s.x) == 3.0 * (2.0 * s.x) * (2.0 * s.x);
    if n >= 2.0 {
      assert n * n >= 4.0;
      assert n * n * (n * n - 1.0) >= 4.0 * 3.0;
    }
  }

  /** On index sums of k points the divisor is positive exactly when k >= 2. */
  lemma DetSignOf(s: Sums, k: nat)
    requires IndexSumsOf(s) && s.n == k as real
    ensures Det(s) >= 0.0
    ensures Det(s) > 0.0 <==> k >= 2
  {
    DetOfIndexSums(s);
    if k < 2 {
      assert s.n == 0.0 || s.n == 1.0;
    }
  }

  /** Sums on which the closed-form fit is defined: a non-empty series and a positive divisor. */
  ghost predicate Fittable(s: Sums)
  {
    s.n > 0.0 && Det(s) > 0.0
  }

  /** Every series of at least two points can be fitted. */
  lemma FittableSeries(data: seq<Point>)
    requires |data| >= 2
    ensures Fittable(Accumulate(data))
  {
    AccumulateCount(data);
    IndexSums(data);
    DetSignOf(Accumulate(data), |data|);
  }

  /** The fitted slope of a series of at least two points. */
  function Slope(data: seq<Point>): real
    requires |data| >= 2
  {
    FittableSeries(data);
    SlopeOf(Accumulate(data))
  }

  /** The fitted intercept of a series of at least two points. */
  function Intercept(data: seq<Point>): real
    requires |data| >= 2
  {
    FittableSeries(data);
    InterceptOf(Accumulate(data))
  }

  /** The line slope·x + intercept at position x. */
  function Line(slope: real, intercept: real, x: int): real
  {
    slope * x as real + intercept
  }

  /** The fitted line evaluated at position x. */
  function Trend(data: seq<Point>, x: int): real
    requires |data| >= 2
  {
    Line(Slope(data), Intercept(data), x)
  }

  /** Points of a line under the given labels, at x = start, start+1, ... rounded to `digits`. */
  function ProjectionOf(slope: real, intercept: real, start: int, months: seq<string>, digits: nat): seq<Point>
  {
    seq(|months|, i requires 0 <= i < |months| =>
      Point(months[i], ToFixed(Line(slope, intercept, start + i), digits)))
  }

  /** A projection keeps its labels, in order, one point per label. */
  lemma ProjectionLabels(slope: real, intercept: real, start: int, months: seq<string>, digits: nat)
    ensures Months(ProjectionOf(slope, intercept, start, months, digits)) == months
  {
    var r := ProjectionOf(slope, intercept, start, months, digits);
    assert forall i :: 0 <= i < |months| ==> Months(r)[i] == months[i];
  }

  /** The points of the fitted line projected under the given labels, one step past the last index onwards. */
  function Projection(data: seq<Point>, months: seq<string>, digits: nat): seq<Point>
    requires |data| >= 2
  {
    ProjectionOf(Slope(data), Intercept(data), |data|, months, digits)
  }

  /**
   * The fit satisfies the normal equations: the residuals sum to zero (the
   * line passes through the mean point) and are uncorrelated with the index.
   */
  lemma NormalEquations(data: seq<Point>)
    requires |data| >= 2
    ensures SolvesNormalEquations(Accumulate(data), Slope(data), Intercept(data))
  {
    SeriesFit(data);
    NormalEquationsOf(Accumulate(data));
  }

  lemma NormalEquationsStep(s: Sums, m: real, b: real, v: real)
    requires SolvesNormalEquations(s, m, b) && v == m * s.n + b
    ensures SolvesNormalEquations(Add(s, v), m, b)
  {
  }

  /** Values that lie on a line m·i + b solve the normal equations at m and b. */
  lemma {:induction false} LinearSums(data: seq<Point>, m: real, b: real)
    requires forall i :: 0 <= i < |data| ==> data[i].value == m * i as real + b
    ensures SolvesNormalEquations(Accumulate(data), m, b)
  {
    if |data| > 0 {
      var k := |data| - 1;
      var front := data[..k];
      assert forall i :: 0 <= i < |front| ==> front[i] == data[i];
      LinearSums(front, m, b);
      AccumulateCount(front);
      NormalEquationsStep(Accumulate(front), m, b, data[k].value);
    }
  }

  lemma LinearAlgebra(s: Sums, m: real, b: real)
    requires Fittable(s) && SolvesNormalEquations(s, m, b)
    ensures SlopeOf(s) == m && InterceptOf(s) == b
  {
    SlopeNumerator(s, m, b);
    DivCancel(m, Det(s));
    assert SlopeOf(s) == m;
    assert s.y - m * s.x == b * s.n;
    DivCancel(b, s.n);
  }

  /** When the normal equations hold at (m, b), the slope numerator is m times the divisor. */
  lemma SlopeNumerator(s: Sums, m: real, b: real)
    requires SolvesNormalEquations(s, m, b)
    ensures s.n * s.xy - s.x * s.y == m * Det(s)
  {
  }

  lemma DivCancel(x: real, d: real)
    requires d != 0.0
    ensures (x * d) / d == x
  {
  }

  /** A perfectly linear series is fitted exactly: slope m, intercept b. */
  lemma LinearSeriesFitsExactly(data: seq<Point>, m: real, b: real)
    requires |data| >= 2
    requires forall i :: 0 <= i < |data| ==> data[i].value == m * i as real + b
    ensures Slope(data) == m && Intercept(data) == b
  {
    LinearSums(data, m, b);
    FittableSeries(data);
    LinearAlgebra(Accumulate(data), m, b);
  }

  lemma SeriesFit(data: seq<Point>)
    requires |data| >= 2
    ensures Fittable(Accumulate(data))
    ensures Slope(data) == SlopeOf(Accumulate(data))
    ensures Intercept(data) == InterceptOf(Accumulate(data))
  {
    FittableSeries(data);
  }

  /** The sums read only the values: relabelling the months changes nothing. */
  lemma {:induction false} SumsIgnoreMonths(data: seq<Point>, other: seq<Point>)
    requires |data| == |other|
    requires forall i :: 0 <= i < |data| ==> data[i].value == other[i].value
    ensures Accumulate(data) == Accumulate(other)
  {
    if |data| > 0 {
      var k := |data| - 1;
      SumsIgnoreMonths(data[..k], other[..k]);
    }
  }

  /** x is the position, not the label: two series with the same values have the same fit. */
  lemma FitIgnoresMonths(data: seq<Point>, other: seq<Point>)
    requires |data| == |other| >= 2
    requires forall i :: 0 <= i < |data| ==> data[i].value == other[i].value
    ensures Slope(data) == Slope(other) && Intercept(data) == Intercept(other)
  {
    SumsIgnoreMonths(data, other);
    SeriesFit(data);
    SeriesFit(other);
  }

  /** Values 100, 110, 120 under any labels: slope 10, intercept 100, projected 130, 140, 150. */
  lemma SteadyGrowthExample(data: seq<Point>)
    requires |data| == 3
    requires data[0].value == 100.0 && data[1].value == 110.0 && data[2].value == 120.0
    ensures Slope(data) == 10.0 && Intercept(data) == 100.0
    ensures Projection(data, ForecastMonths, 2)
         == [Point("Jul '25", 130.0), Point("Aug '25", 140.0), Point("Sep '25", 150.0)]
  {
    assert forall i :: 0 <= i < |data| ==> data[i].value == 10.0 * i as real + 100.0;
    LinearSeriesFitsExactly(data, 10.0, 100.0);
    ToFixedWhole(130, 2);
    ToFixedWhole(140, 2);
    ToFixedWhole(150, 2);
    assert Line(10.0, 100.0, 3) == 130.0;
    assert Line(10.0, 100.0, 4) == 140.0;
    assert Line(10.0, 100.0, 5) == 150.0;
  }

  /** The fit written out on the loop's own variables. */
  lemma ClosedForms(s: Sums, n: real, x: real, y: real, xy: real, xx: real, m: real, c: real)
    requires s == Sums(n, x, y, xy, xx) && Fittable(s)
    requires n * xx - x * x != 0.0 && m == (n * xy - x * y) / (n * xx - x * x)
    requires n != 0.0 && c == (y - m * x) / n
    ensures SlopeOf(s) == m && InterceptOf(s) == c
  {
  }

  /** The accumulation loop: `data.forEach((point, index) => ...)` over the four sums. */
  method AccumulateSums(data: seq<Point>)
    returns (sumX: real, sumY: real, sumXY: real, sumXX: real)
    ensures Sums(|data| as real, sumX, sumY, sumXY, sumXX) == Accumulate(data)
  {
    sumX, sumY, sumXY, sumXX := 0.0, 0.0, 0.0, 0.0;
    var index := 0;
    while index < |data|
      invariant 0 <= index <= |data|
      invariant Sums(index as real, sumX, sumY, sumXY, sumXX) == Accumulate(data[..index])
    {
      assert data[..index + 1][..index] == data[..index];
      sumX := sumX + index as real;
      sumY := sumY + data[index].value;
      sumXY := sumXY + index as real * data[index].value;
      sumXX := sumXX + index as real * index as real;
      index := index + 1;
    }
    assert data[..|data|] == data;
  }

  /** The projection loop: one rounded point of the line per label, at x = n, n+1, ... */
  method ProjectLine(n: nat, slope: real, intercept: real, months: seq<string>, digits: nat)
    returns (predictions: seq<Point>)
    ensures predictions == ProjectionOf(slope, intercept, n, months, digits)
  {
    predictions := [];
    var i := 0;
    while i < |months|
      invariant 0 <= i <= |months|
      invariant |predictions| == i
      invariant forall j :: 0 <= j < i ==>
        predictions[j] == Point(months[j], ToFixed(Line(slope, intercept, n + j), digits))
    {
      var x := n + i;
      var predictedValue := slope * x as real + intercept;
      assert predictedValue == Line(slope, intercept, n + i);
      predictions := predictions + [Point(months[i], ToFixed(predictedValue, digits))];
      i := i + 1;
    }
    assert forall j :: 0 <= j < |months| ==>
      predictions[j] == ProjectionOf(slope, intercept, n, months, digits)[j];
  }

  /**
   * The body shared by the three copies of the regression: the sums over the
   * 0-based index, the closed-form fit, then the projection under the labels.
   */
  method FitAndProject(data: seq<Point>, months: seq<string>, digits: nat)
    returns (slope: real, intercept: real, predictions: seq<Point>)
    requires |data| >= 2
    ensures slope == Slope(data) && intercept == Intercept(data)
    ensures predictions == Projection(data, months, digits)
  {
    var n := |data|;
    var sumX, sumY, sumXY, sumXX := AccumulateSums(data);
    SeriesFit(data);
    assert n as real * sumXX - sumX * sumX == Det(Accumulate(data));
    slope := (n as real * sumXY - sumX * sumY) / (n as real * sumXX - sumX * sumX);
    intercept := (sumY - slope * sumX) / n as real;
    ClosedForms(Accumulate(data), n as real, sumX, sumY, sumXY, sumXX, slope, intercept);
    predictions := ProjectLine(n, slope, intercept, months, digits);
  }

  /** The labels linearRegression attaches to its projection, whatever the input labels. */
  const ForecastMonths: seq<string> := ["Jul '25", "Aug '25", "Sep '25"]

  /**
   * linearRegression: the fit (unrounded) and three points labelled
   * Jul/Aug/Sep '25, each the line at n, n+1, n+2 rounded to two decimals.
   */
  method LinearRegression(data: seq<Point>)
    returns (slope: real, intercept: real, predictions: seq<Point>)
    requires |data| >= 2
    ensures slope == Slope(data) && intercept == Intercept(data)
    ensures predictions == Projection(data, ForecastMonths, 2)
    ensures |predictions| == 3 && Months(predictions) == ForecastMonths
    ensures forall i :: 0 <= i < 3 ==>
      predictions[i].value == ToFixed(Line(slope, intercept, |data| + i), 2)
  {
    slope, intercept, predictions := FitAndProject(data, ForecastMonths, 2);
    ProjectionLabels(slope, intercept, |data|, ForecastMonths, 2);
  }
}
