/**
 * The value arithmetic shared by the drag handlers of the line chart
 * (src/components/LineChart.tsx) and of the marketing-spend chart on the
 * dashboard page (src/app/page.tsx): where the dragged last point lands.
 */
module Drag {
  import opened Series
  import opened Rounding

  /** `s.includes(t)`: t is a prefix of s or of one of its suffixes. */
  predicate Contains(s: string, t: string)
  {
    |t| <= |s| && (s[..|t|] == t || Contains(s[1..], t))
  }

  /** t occurs in s starting at position i. */
  predicate OccursAt(s: string, t: string, i: int)
  {
    0 <= i <= |s| - |t| && s[i..i + |t|] == t
  }

  /** Contains means t occurs in s at some position. */
  lemma {:induction false} ContainsOccurs(s: string, t: string)
    ensures Contains(s, t) <==> exists i :: OccursAt(s, t, i)
  {
    if |t| > |s| {
    } else if s[..|t|] == t {
      assert OccursAt(s, t, 0);
    } else {
      ContainsOccurs(s[1..], t);
      if Contains(s[1..], t) {
        var i :| OccursAt(s[1..], t, i);
        assert s[i + 1..i + 1 + |t|] == s[1..][i..i + |t|];
        assert OccursAt(s, t, i + 1);
      }
      if exists i :: OccursAt(s, t, i) {
        var i :| OccursAt(s, t, i);
        assert i != 0;
        assert s[1..][i - 1..i - 1 + |t|] == s[i..i + |t|];
        assert OccursAt(s[1..], t, i - 1);
      }
    }
  }

  /** A chart is a spend chart when its title contains "Spend". */
  predicate IsSpend(title: string)
  {
    Contains(title, "Spend")
  }

  /** Value change per pixel of vertical pointer movement. */
  function Sensitivity(title: string): (r: real)
    ensures r > 0.0
  {
    if IsSpend(title) then 100.0 else 0.01
  }

  /** Decimals kept when rounding a dragged or projected value. */
  function Digits(title: string): nat
  {
    if IsSpend(title) then 0 else 2
  }

  /**
   * `tooltipPayload?.[0]?.value || current`: the hovered value when there is
   * one and it is not zero (zero is falsy), otherwise the point's own value.
   */
  function YValue(tooltip: Option<real>, current: real): (r: real)
    ensures tooltip.Some? && tooltip.value != 0.0 ==> r == tooltip.value
    ensures tooltip.None? || tooltip.value == 0.0 ==> r == current
  {
    if tooltip.Some? && tooltip.value != 0.0 then tooltip.value else current
  }

  /** `Math.max(0, x)`. */
  function ClampAtZero(x: real): (r: real)
    ensures r >= 0.0 && r >= x
    ensures r == x || r == 0.0
  {
    if x > 0.0 then x else 0.0
  }

  /** The target before rounding: yValue moved against the pointer's vertical travel since the anchor. */
  function Target(yValue: real, startY: real, chartY: real, sensitivity: real): real
  {
    yValue - (chartY - startY) * sensitivity
  }

  /**
   * The new value of the dragged point: the target rounded to `digits`
   * decimals, then clamped at zero. It is never negative, and for a
   * non-negative target it is within half a unit of the last decimal of it.
   */
  function DraggedValue(yValue: real, startY: real, chartY: real, sensitivity: real, digits: nat): (r: real)
    ensures r >= 0.0
    ensures r >= ToFixed(Target(yValue, startY, chartY, sensitivity), digits)
    ensures r == ToFixed(Target(yValue, startY, chartY, sensitivity), digits) || r == 0.0
    ensures var t := Target(yValue, startY, chartY, sensitivity);
      0.0 <= t < FixedLimit ==> -HalfUnit(digits) <= r - t <= HalfUnit(digits)
  {
    ClampAtZero(ToFixed(Target(yValue, startY, chartY, sensitivity), digits))
  }

  /** A copy of the series with only the last point's value replaced. */
  function ReplaceLast(data: seq<Point>, v: real): (r: seq<Point>)
    requires |data| >= 1
    ensures |r| == |data| && Months(r) == Months(data)
    ensures r[..|data| - 1] == data[..|data| - 1]
    ensures r[|data| - 1].value == v
  {
    data[|data| - 1 := Point(data[|data| - 1].month, v)]
  }

  /** The series after one pointer move of a drag anchored at startY. */
  function Moved(data: seq<Point>, tooltip: Option<real>, startY: real, chartY: real,
                 sensitivity: real, digits: nat): (r: seq<Point>)
    requires |data| >= 1
    ensures |r| == |data| && Months(r) == Months(data)
    ensures r[..|data| - 1] == data[..|data| - 1]
    ensures r[|data| - 1].value >= 0.0
    ensures r[|data| - 1] == Point(data[|data| - 1].month,
      DraggedValue(YValue(tooltip, data[|data| - 1].value), startY, chartY, sensitivity, digits))
  {
    var v := DraggedValue(YValue(tooltip, data[|data| - 1].value), startY, chartY, sensitivity, digits);
    ReplaceLast(data, v)
  }

  /**
   * Each move re-anchors the drag, so deltas are relative: on a whole
   * value, at 100 per pixel and whole-number rounding, with no hovered
   * value and no clamping, moving from y0 to y1 and then to y2 lands where
   * one move from y0 to y2 does.
   */
  lemma MovesCompose(data: seq<Point>, k: int, y0: int, y1: int, y2: int)
    requires |data| >= 1 && data[|data| - 1].value == k as real
    requires k - (y1 - y0) * 100 >= 0 && k - (y2 - y0) * 100 >= 0
    ensures Moved(Moved(data, None, y0 as real, y1 as real, 100.0, 0), None, y1 as real, y2 as real, 100.0, 0)
         == Moved(data, None, y0 as real, y2 as real, 100.0, 0)
  {
    var last := |data| - 1;
    var once := Moved(data, None, y0 as real, y1 as real, 100.0, 0);
    assert Target(k as real, y0 as real, y1 as real, 100.0) == (k - (y1 - y0) * 100) as real;
    ToFixedWhole(k - (y1 - y0) * 100, 0);
    assert once[last].value == (k - (y1 - y0) * 100) as real;
    assert Target(once[last].value, y1 as real, y2 as real, 100.0) == (k - (y2 - y0) * 100) as real;
    assert Target(k as real, y0 as real, y2 as real, 100.0) == (k - (y2 - y0) * 100) as real;
    ToFixedWhole(k - (y2 - y0) * 100, 0);
  }
}
