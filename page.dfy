/**
 * The dashboard page (src/app/page.tsx): the marketing-spend series and
 * its drag-to-edit chart, the page's own two-month re-projection, the
 * date-range filter, the date-range change and reset (their final state),
 * and the append-only annotation list.
 */
module Page {
  import opened Series
  import opened Predict
  import opened Drag

  /** The twelve months of marketing spend, Jul '24 to Jun '25. */
  const MarketingSpendData: seq<Point> := [
    Point("Jul '24", 814159.0), Point("Aug '24", 825795.0), Point("Sep '24", 836274.0),
    Point("Oct '24", 846582.0), Point("Nov '24", 856705.0), Point("Dec '24", 866638.0),
    Point("Jan '25", 876378.0), Point("Feb '25", 886920.0), Point("Mar '25", 896266.0),
    Point("Apr '25", 905418.0), Point("May '25", 914378.0), Point("Jun '25", 923148.0)
  ]

  /** The reference month list the filter looks labels up in. */
  function MarketingMonths(): (r: seq<string>)
    ensures |r| == 12
    ensures forall i :: 0 <= i < 12 ==> r[i] == MarketingSpendData[i].month
  {
    Months(MarketingSpendData)
  }

  /** The selected date range, as month labels. */
  datatype DateRange = DateRange(start: string, end: string)

  /** The range selected when the page opens. */
  const InitialRange: DateRange := DateRange("Jul '24", "Jun '25")

  /** The labels of the page's own re-projection. */
  const RecalcMonths: seq<string> := ["May '25", "Jun '25"]

  /** `Array.prototype.indexOf`: the first position of x in s, or −1 when x is absent. */
  function IndexOf(s: seq<string>, x: string): (r: int)
    ensures -1 <= r < |s|
    ensures r == -1 <==> x !in s
    ensures 0 <= r ==> s[r] == x && x !in s[..r]
  {
    if |s| == 0 then -1
    else if s[0] == x then 0
    else
      var i := IndexOf(s[1..], x);
      if i == -1 then -1
      else assert s[..i + 1] == [s[0]] + s[1..][..i]; i + 1
  }

  function Clamp(x: int, lo: int, hi: int): (r: int)
    requires lo <= hi
    ensures lo <= r <= hi
    ensures lo <= x <= hi ==> r == x
  {
    if x < lo then lo else if x > hi then hi else x
  }

  /**
   * The points at positions lo..hi inclusive that exist, in their order:
   * the reference the filter is proved against.
   */
  function Window(data: seq<Point>, lo: int, hi: int): seq<Point>
  {
    var a := Clamp(lo, 0, |data|);
    data[a..Clamp(hi + 1, a, |data|)]
  }

  /** `data.filter((_, index) => index >= lo && index <= hi)`, decided point by point. */
  function KeepIndices(data: seq<Point>, lo: int, hi: int): seq<Point>
  {
    if |data| == 0 then []
    else KeepIndices(data[..|data| - 1], lo, hi) + (if lo <= |data| - 1 <= hi then [data[|data| - 1]] else [])
  }

  /** The point-by-point filter keeps exactly the window lo..hi. */
  lemma {:induction false} KeepIndicesIsWindow(data: seq<Point>, lo: int, hi: int)
    ensures KeepIndices(data, lo, hi) == Window(data, lo, hi)
  {
    if |data| > 0 {
      var k := |data| - 1;
      var front := data[..k];
      KeepIndicesIsWindow(front, lo, hi);
      var a0 := Clamp(lo, 0, k);
      var b0 := Clamp(hi + 1, a0, k);
      var a := Clamp(lo, 0, k + 1);
      var b := Clamp(hi + 1, a, k + 1);
      if lo <= k <= hi {
        assert a == a0 && b0 == k && b == k + 1;
        assert front[a0..b0] + [data[k]] == data[a..b];
      } else if k < lo {
        assert front[a0..b0] == [] == data[a..b];
      } else {
        assert a == a0 && b == b0;
        assert front[a0..b0] == data[a..b];
      }
    }
  }

  /** A window inside the series is exactly the slice lo..hi. */
  lemma WindowInside(data: seq<Point>, lo: int, hi: int)
    requires 0 <= lo <= hi < |data|
    ensures Window(data, lo, hi) == data[lo..hi + 1]
  {
  }

  /**
   * filterDataByDate: when either label of the range is not a marketing
   * month the data passes through; otherwise the positions from the start
   * label's to the end label's, inclusive, in order. Never longer than the
   * input.
   */
  function FilterDataByDate(range: DateRange, data: seq<Point>): (r: seq<Point>)
    ensures |r| <= |data|
    ensures range.start !in MarketingMonths() || range.end !in MarketingMonths() ==> r == data
    ensures range.start in MarketingMonths() && range.end in MarketingMonths() ==>
      r == Window(data, IndexOf(MarketingMonths(), range.start), IndexOf(MarketingMonths(), range.end))
  {
    var months := MarketingMonths();
    var startIndex := IndexOf(months, range.start);
    var endIndex := IndexOf(months, range.end);
    if startIndex == -1 || endIndex == -1 then data
    else
      KeepIndicesIsWindow(data, startIndex, endIndex);
      KeepIndices(data, startIndex, endIndex)
  }

  /** A range whose start month comes after its end month keeps nothing. */
  lemma FilterReversed(range: DateRange, data: seq<Point>)
    requires range.start in MarketingMonths() && range.end in MarketingMonths()
    requires IndexOf(MarketingMonths(), range.start) > IndexOf(MarketingMonths(), range.end)
    ensures FilterDataByDate(range, data) == []
  {
  }

  /** IndexOf finds the first occurrence: a position holding x with no x before it. */
  lemma IndexOfFirst(s: seq<string>, x: string, i: int)
    requires 0 <= i < |s| && s[i] == x
    requires forall j :: 0 <= j < i ==> s[j] != x
    ensures IndexOf(s, x) == i
  {
    assert x in s;
  }

  /** Jul '24 opens the marketing months. */
  lemma JulyIsFirst()
    ensures IndexOf(MarketingMonths(), "Jul '24") == 0
  {
    assert MarketingSpendData[0].month == "Jul '24";
    IndexOfFirst(MarketingMonths(), "Jul '24", 0);
  }

  /** Jan '25 is the seventh marketing month and appears nowhere before it. */
  lemma JanuaryIsSeventh()
    ensures IndexOf(MarketingMonths(), "Jan '25") == 6
  {
    assert MarketingSpendData[6].month == "Jan '25";
    assert forall i :: 0 <= i < 6 ==> MarketingSpendData[i].month != "Jan '25";
    IndexOfFirst(MarketingMonths(), "Jan '25", 6);
  }

  /** Jun '25 is the last marketing month and appears nowhere before it. */
  lemma JuneIsLast()
    ensures IndexOf(MarketingMonths(), "Jun '25") == 11
  {
    assert MarketingSpendData[11].month == "Jun '25";
    assert forall i :: 0 <= i < 11 ==> MarketingSpendData[i].month != "Jun '25";
    IndexOfFirst(MarketingMonths(), "Jun '25", 11);
  }

  /** The initial range spans every marketing month, so it keeps any series of up to twelve points. */
  lemma InitialRangeKeepsAll(data: seq<Point>)
    requires |data| <= 12
    ensures FilterDataByDate(InitialRange, data) == data
  {
    JulyIsFirst();
    JuneIsLast();
    assert FilterDataByDate(InitialRange, data) == Window(data, 0, 11);
    assert data[0..|data|] == data;
  }

  /** `.slice(0, 10)`: the first ten points, or the whole series when it is shorter. */
  function FirstTen(data: seq<Point>): (r: seq<Point>)
    ensures |r| <= 10 && |r| <= |data| && r == data[..|r|]
    ensures |r| == if |data| < 10 then |data| else 10
  {
    if |data| <= 10 then data else data[..10]
  }

  /** The marketing chart data the page derives from a range: the filtered series, cut to ten points. */
  function ChartWindow(range: DateRange): seq<Point>
  {
    FirstTen(FilterDataByDate(range, MarketingSpendData))
  }

  /** The page's own copy of the regression: two points labelled May/Jun '25, rounded to whole numbers. */
  method RecalculatePrediction(data: seq<Point>) returns (predictions: seq<Point>)
    requires |data| >= 2
    ensures predictions == Projection(data, RecalcMonths, 0)
    ensures |predictions| == 2 && Months(predictions) == RecalcMonths
  {
    var slope, intercept;
    slope, intercept, predictions := FitAndProject(data, RecalcMonths, 0);
    ProjectionLabels(Slope(data), Intercept(data), |data|, RecalcMonths, 0);
  }

  /** The first two points of linearRegression, as the page keeps them after a reset or a range change. */
  function TwoOfThree(data: seq<Point>): seq<Point>
    requires |data| >= 2
  {
    Projection(data, ForecastMonths, 2)[..2]
  }

  /**
   * The page's first projection is labelled Jul/Aug '25 whatever series it
   * extends, and kept to two decimals; the ten points it extends on the
   * first render end at Apr '25, and the months that follow them in the
   * marketing list, which are also the labels a drag re-projects under
   * (rounded to whole numbers), are May/Jun '25.
   */
  lemma {:induction false} InitialLabelsDisagreeWithRecompute(data: seq<Point>)
    requires |data| >= 2
    ensures Months(TwoOfThree(data)) == ["Jul '25", "Aug '25"]
    ensures Months(TwoOfThree(data)) != RecalcMonths
    ensures MarketingSpendData[9].month == "Apr '25"
    ensures MarketingMonths()[10..12] == RecalcMonths
  {
    var p := Projection(data, ForecastMonths, 2);
    ProjectionLabels(Slope(data), Intercept(data), |data|, ForecastMonths, 2);
    assert Months(p[..2]) == Months(p)[..2];
    assert Months(p[..2])[0][0] == 'J' != RecalcMonths[0][0];
  }

  class Home {
    var dateRange: DateRange
    var annotations: seq<Annotation>
    var marketingSpendChartData: seq<Point>
    var marketingSpendPredData: seq<Point>
    var isDraggingMarketingSpend: bool
    var dragStartMarketingSpend: Option<Anchor>

    /**
     * A drag is in progress exactly when there is an anchor, and the chart
     * always holds enough points to refit.
     */
    ghost predicate Valid()
      reads this
    {
      && (isDraggingMarketingSpend <==> dragStartMarketingSpend.Some?)
      && |marketingSpendChartData| >= 2
    }

    /**
     * The first render: the full range, no annotations, the first ten
     * marketing months, and the first two of linearRegression's three
     * projected points for them.
     */
    constructor ()
      ensures Valid()
      ensures dateRange == InitialRange && annotations == []
      ensures marketingSpendChartData == MarketingSpendData[..10]
      ensures marketingSpendPredData == TwoOfThree(MarketingSpendData[..10])
      ensures !isDraggingMarketingSpend && dragStartMarketingSpend == None
    {
      var slope, intercept, predictions := LinearRegression(MarketingSpendData[..10]);
      dateRange := InitialRange;
      annotations := [];
      marketingSpendChartData := MarketingSpendData[..10];
      marketingSpendPredData := predictions[..2];
      isDraggingMarketingSpend := false;
      dragStartMarketingSpend := None;
    }

    /** Pressing on the marketing chart starts a drag only on the last point's label. */
    method HandleMouseDownMarketingSpend(activeLabel: Option<string>, chartX: real, chartY: real)
      requires Valid()
      modifies this`isDraggingMarketingSpend, this`dragStartMarketingSpend
      ensures Valid()
      ensures activeLabel == Some(marketingSpendChartData[|marketingSpendChartData| - 1].month) ==>
        isDraggingMarketingSpend && dragStartMarketingSpend == Some(Anchor(chartX, chartY))
      ensures activeLabel != Some(marketingSpendChartData[|marketingSpendChartData| - 1].month) ==>
        isDraggingMarketingSpend == old(isDraggingMarketingSpend)
        && dragStartMarketingSpend == old(dragStartMarketingSpend)
    {
      var lastDataPoint := marketingSpendChartData[|marketingSpendChartData| - 1];
      if activeLabel == Some(lastDataPoint.month) {
        isDraggingMarketingSpend := true;
        dragStartMarketingSpend := Some(Anchor(chartX, chartY));
      }
    }

    /**
     * A move during a drag sets the last value at 100 per pixel, rounded to
     * a whole number and never negative, replaces the two-month projection
     * and re-anchors; outside a drag it does nothing.
     */
    method HandleMouseMoveMarketingSpend(tooltip: Option<real>, chartX: real, chartY: real)
      requires Valid()
      modifies this`marketingSpendChartData, this`marketingSpendPredData, this`dragStartMarketingSpend
      ensures Valid()
      ensures !isDraggingMarketingSpend ==>
        && marketingSpendChartData == old(marketingSpendChartData)
        && marketingSpendPredData == old(marketingSpendPredData)
        && dragStartMarketingSpend == old(dragStartMarketingSpend)
      ensures isDraggingMarketingSpend ==>
        && |old(marketingSpendChartData)| >= 2
        && marketingSpendChartData
           == Moved(old(marketingSpendChartData), tooltip, old(dragStartMarketingSpend).value.y, chartY, 100.0, 0)
        && marketingSpendPredData == Projection(marketingSpendChartData, RecalcMonths, 0)
        && dragStartMarketingSpend == Some(Anchor(chartX, chartY))
    {
      if !isDraggingMarketingSpend || dragStartMarketingSpend.None? {
        return;
      }
      var updatedData := Moved(marketingSpendChartData, tooltip, dragStartMarketingSpend.value.y, chartY, 100.0, 0);
      var newPrediction := RecalculatePrediction(updatedData);
      marketingSpendChartData := updatedData;
      marketingSpendPredData := newPrediction;
      dragStartMarketingSpend := Some(Anchor(chartX, chartY));
    }

    /** Releasing the button, or leaving the chart, ends any drag; the data is untouched. */
    method HandleMouseUpMarketingSpend()
      requires Valid()
      modifies this`isDraggingMarketingSpend, this`dragStartMarketingSpend
      ensures Valid()
      ensures !isDraggingMarketingSpend && dragStartMarketingSpend == None
    {
      isDraggingMarketingSpend := false;
      dragStartMarketingSpend := None;
    }

    /**
     * The state a date-range change ends in, as the code is written: the
     * new labels become the range, but the chart is refiltered through the
     * range that was in effect before the change.
     */
    method HandleDateRangeChangeAsWritten(start: Option<string>, end: Option<string>)
      requires Valid()
      requires start.Some? && end.Some? ==> |ChartWindow(dateRange)| >= 2
      modifies this`dateRange, this`marketingSpendChartData, this`marketingSpendPredData
      ensures Valid()
      ensures start.Some? && end.Some? ==>
        && dateRange == DateRange(start.value, end.value)
        && marketingSpendChartData == ChartWindow(old(dateRange))
        && marketingSpendPredData == TwoOfThree(ChartWindow(old(dateRange)))
      ensures start.None? || end.None? ==>
        && dateRange == old(dateRange)
        && marketingSpendChartData == old(marketingSpendChartData)
        && marketingSpendPredData == old(marketingSpendPredData)
    {
      if start.Some? && end.Some? {
        var previous := dateRange;
        dateRange := DateRange(start.value, end.value);
        var filtered := ChartWindow(previous);
        var slope, intercept, predictions := LinearRegression(filtered);
        marketingSpendChartData := filtered;
        marketingSpendPredData := predictions[..2];
      }
    }

    /**
     * The state a date-range change ends in once both dates are picked
     * (the labels are the formatted dates): the new range, and the chart
     * refiltered through it, so the chart shows the range it displays.
     */
    method HandleDateRangeChange(start: Option<string>, end: Option<string>)
      requires Valid()
      requires start.Some? && end.Some? ==> |ChartWindow(DateRange(start.value, end.value))| >= 2
      modifies this`dateRange, this`marketingSpendChartData, this`marketingSpendPredData
      ensures Valid()
      ensures start.Some? && end.Some? ==>
        && dateRange == DateRange(start.value, end.value)
        && marketingSpendChartData == ChartWindow(dateRange)
        && marketingSpendPredData == TwoOfThree(ChartWindow(dateRange))
      ensures start.None? || end.None? ==>
        && dateRange == old(dateRange)
        && marketingSpendChartData == old(marketingSpendChartData)
        && marketingSpendPredData == old(marketingSpendPredData)
    {
      if start.Some? && end.Some? {
        var chosen := DateRange(start.value, end.value);
        var filtered := ChartWindow(chosen);
        var slope, intercept, predictions := LinearRegression(filtered);
        dateRange := chosen;
        marketingSpendChartData := filtered;
        marketingSpendPredData := predictions[..2];
      }
    }

    /** The state a reset ends in: the chart refiltered through the current range. */
    method ResetChartData()
      requires Valid() && |ChartWindow(dateRange)| >= 2
      modifies this`marketingSpendChartData, this`marketingSpendPredData
      ensures Valid()
      ensures marketingSpendChartData == ChartWindow(dateRange)
      ensures marketingSpendPredData == TwoOfThree(ChartWindow(dateRange))
    {
      var filtered := ChartWindow(dateRange);
      var slope, intercept, predictions := LinearRegression(filtered);
      marketingSpendChartData := filtered;
      marketingSpendPredData := predictions[..2];
    }

    /** addAnnotation: exactly one note appended, earlier notes kept in place. */
    method AddAnnotation(month: string, note: string)
      modifies this`annotations
      ensures annotations == old(annotations) + [Annotation(month, note)]
      ensures |annotations| == |old(annotations)| + 1
      ensures annotations[..|old(annotations)|] == old(annotations)
    {
      annotations := annotations + [Annotation(month, note)];
    }

    /** The series the page derives on every render: the chart data filtered through the current range. */
    function MarketingSpendFiltered(): (r: seq<Point>)
      reads this
      ensures |r| <= |marketingSpendChartData|
    {
      FilterDataByDate(dateRange, marketingSpendChartData)
    }
  }

  /** Under the initial range the derived series is the chart data itself. */
  lemma InitialViewShowsChart(home: Home)
    requires home.dateRange == InitialRange && |home.marketingSpendChartData| <= 12
    ensures home.MarketingSpendFiltered() == home.marketingSpendChartData
  {
    InitialRangeKeepsAll(home.marketingSpendChartData);
  }

  /**
   * Choosing Jan '25 to Jun '25 after the initial range: filtered through
   * the previous range the chart keeps ten points from Jul '24, filtered
   * through the chosen one it holds the six points from Jan '25.
   */
  lemma StaleRangeExample()
    ensures |ChartWindow(InitialRange)| == 10
    ensures ChartWindow(DateRange("Jan '25", "Jun '25")) == MarketingSpendData[6..12]
    ensures ChartWindow(InitialRange) != ChartWindow(DateRange("Jan '25", "Jun '25"))
  {
    InitialRangeKeepsAll(MarketingSpendData);
    JanuaryIsSeventh();
    JuneIsLast();
    WindowInside(MarketingSpendData, 6, 11);
  }
}
