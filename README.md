# Dashboard trend, drag-to-edit and export model

A model of the computational core of a client-side financial dashboard
(a Next.js page with Recharts line charts):

- **Trend projection** (`src/utils/predict.ts` and the two inline copies
  named `recalculatePrediction`): the sums over the 0-based position,
  the closed-form least-squares slope and intercept, and the rounded
  projection of the line at `n, n+1, …` under fixed month labels. The
  three copies share one method (`Predict.FitAndProject`) and differ only
  in the labels and decimals they pass it. Their closed form is proved to
  be the least-squares line.
- **Drag-to-edit** on the last point of a chart, in the line chart
  component and on the dashboard's marketing-spend chart: a class per
  component, with the chart series, the projection, the dragging flag
  and the anchor as fields. The value arithmetic is shared in module
  `Drag`: relative delta, the sensitivity chosen by the title, rounding,
  clamping at zero, and replacing only the last point.
- **Date-range filter** of the dashboard: two labels are looked up in the
  marketing month list, and either the data passes through or the
  inclusive window of positions is kept. Also modelled: the final state of
  the range change and of the reset, and the derived series filtered on
  every render.
- **CSV text** of both chart components: a header `Month,<title>`, then one
  `month,value` line per point, cells joined by `,`, lines by `\n`. The
  text is proved to read back into its rows and cells when no cell holds a
  separator.
- **Annotations**: the submit guard of the line chart's form and the
  page's append-only list.

Numbers are exact reals. `Number(x.toFixed(d))` is modelled by
`Rounding.ToFixed`: round half away from zero to `d` decimals, and
magnitudes of at least 10^21 come back unchanged. Turning a number into
cell text is a parameter `show`. Pointer events arrive as plain
parameters: the active label and the tooltip value as `Option`, and the
pointer position as reals.

Modules: `Series` (shared values), `Rounding`, `Predict`,
`LeastSquares`, `Csv`, `Drag`, `LineChart`, `ProfileChart`, `Page`.

## Model

| member | source | states |
|---|---|---|
| Rounding.ToFixed | src/utils/predict.ts:25 | rounding keeps the sign, and below 10^21 lands within half a unit of the last kept decimal |
| Rounding.ToFixedWhole | src/utils/predict.ts:25 | a whole number comes back from rounding unchanged, whatever the number of decimals |
| Predict.AccumulateSums | src/utils/predict.ts:4-15 | the forEach loop's four accumulators (and n) equal the reference sums over positions 0..n−1 |
| Predict.AccumulateCount | src/utils/predict.ts:4-15 | the count in the sums is the length of the series |
| Predict.IndexSums | src/utils/predict.ts:10-15 | the x-values are the positions: Σi = n(n−1)/2 and Σi² = (n−1)n(2n−1)/6, independent of values and labels |
| Predict.SumsIgnoreMonths | src/utils/predict.ts:10-15 | the sums depend only on the values, not on the month strings |
| Predict.DetOfIndexSums | src/utils/predict.ts:17 | 12·(n·Σi² − (Σi)²) = n²(n²−1): positive for n ≥ 2, zero for n = 0 or 1 |
| Predict.DetSignOf | src/utils/predict.ts:17 | the slope denominator is never negative, and is positive exactly when n ≥ 2 |
| Predict.FittableSeries | src/utils/predict.ts:17-18 | every series of at least two points has a non-zero denominator and non-zero n |
| Predict.NormalEquationsOf | src/utils/predict.ts:17-18 | the closed-form slope and intercept solve both normal equations of least squares |
| Predict.NormalEquations | src/utils/predict.ts:17-18 | for a series: Σy = slope·Σi + n·intercept (the line passes through the mean point) and Σi·y = slope·Σi² + intercept·Σi |
| Predict.LinearSums | src/utils/predict.ts:10-15 | values lying on a line m·i + b satisfy the normal equations for (m, b) |
| Predict.LinearAlgebra | src/utils/predict.ts:17-18 | once the denominator is non-zero the normal equations have only the closed-form solution |
| Predict.LinearSeriesFitsExactly | src/utils/predict.ts:17-18 | if every value is m·i + b, the slope is m and the intercept is b |
| Predict.FitIgnoresMonths | src/utils/predict.ts:10-18 | two series with the same values have the same slope and intercept, whatever their labels |
| Predict.ProjectionLabels | src/utils/predict.ts:21-25 | the projected points carry the given labels, in order, one per label |
| Predict.ProjectLine | src/utils/predict.ts:20-26 | the push loop yields, for each label i, the line at n + i rounded to the given decimals |
| Predict.FitAndProject | src/utils/predict.ts:4-26 | accumulate, fit and project: the unrounded slope and intercept of the series and its projection |
| Predict.LinearRegression | src/utils/predict.ts:1-29 | exactly three points labelled Jul/Aug/Sep '25; point i is the fitted line at n + i rounded to two decimals; the returned slope and intercept are the unrounded ones used |
| Predict.SteadyGrowthExample | src/utils/predict.ts:1-29 | values 100, 110, 120 give slope 10, intercept 100 and the points 130, 140, 150 |
| LeastSquares.SquaredErrorSplit | src/utils/predict.ts:17-18 | the squared error of any line splits into that of a reference line, a cross term and the spread of the gap |
| LeastSquares.NormalSolutionIsOptimal | src/utils/predict.ts:17-18 | a solution of the normal equations has the least squared error; with two points or more any other line is worse by at least the squares of its gap at positions 0 and 1 |
| LeastSquares.FitIsLeastSquares | src/utils/predict.ts:17-18 | the fitted slope and intercept minimise the sum of squared residuals over all lines, strictly with a gap for any other line |
| Csv.SplitJoin | src/components/LineChart.tsx:69-70 | joining cells with a separator none of them holds and splitting the text gives the cells back |
| Csv.JoinAvoids | src/components/LineChart.tsx:69-70 | a character in no cell and not the separator is not in the joined text |
| Csv.TableReadsBack | src/components/LineChart.tsx:65-70 | a table of plain cells splits into one line per row, and each line into its row's cells |
| Csv.ExportRows | src/components/LineChart.tsx:65-68 | the rows are the header ["Month", title], then [month, value text] per point in order |
| Csv.ExportStartsWithHeader | src/components/LineChart.tsx:64-70 | the text always begins with "Month," and the title |
| Csv.ExportReadsBack | src/components/LineChart.tsx:64-70 | with plain cells the text has one line per point after the header, each "month,value", each splitting back into its two cells |
| Drag.ContainsOccurs | src/components/LineChart.tsx:94 | `includes` holds exactly when the word occurs at some position of the title |
| Drag.YValue | src/components/LineChart.tsx:93 | the tooltip value when present and non-zero, otherwise the last point's own value |
| Drag.ClampAtZero | src/components/LineChart.tsx:99 | the result is never negative, never below the input, and is either the input or 0 |
| Drag.DraggedValue | src/components/LineChart.tsx:94-99 | the new value is never negative, is the rounded target or 0, and for a target in [0, 10^21) is within half a unit of it |
| Drag.ReplaceLast | src/components/LineChart.tsx:96-100 | same length and months, earlier points identical, the last value replaced |
| Drag.Moved | src/components/LineChart.tsx:93-100 | one move keeps length and months and the earlier points; the last point keeps its month and its value becomes the dragged value: the tooltip value or the old value, moved by the pointer's travel times the sensitivity, rounded, clamped at zero |
| Drag.MovesCompose | src/components/LineChart.tsx:90-106 | because each move re-anchors, two successive moves land where one move over the whole travel does — stated for a whole last value, whole pointer positions, 100 per pixel with 0 decimals (a spend chart), no tooltip value, and targets that never fall below zero |
| LineChart.LineChartState.constructor | src/components/LineChart.tsx:49-55 | local copies of the props, idle, the annotation form empty and hidden |
| LineChart.LineChartState.SyncProps | src/components/LineChart.tsx:57-60 | new props overwrite the local series and projection; nothing else changes |
| LineChart.LineChartState.CombinedData | src/components/LineChart.tsx:62 | the local series followed by the local projection |
| LineChart.LineChartState.HandleMouseDown | src/components/LineChart.tsx:82-88 | a drag starts, anchored at the pointer, exactly when the label is the last point's month; otherwise nothing changes |
| LineChart.LineChartState.HandleMouseMove | src/components/LineChart.tsx:90-106 | outside a drag nothing changes; during one the series becomes the moved series, the projection is recomputed from it and the anchor moves to the pointer |
| LineChart.LineChartState.HandleMouseUp | src/components/LineChart.tsx:108-112 | the drag ends (flag false, no anchor) and the data is untouched |
| LineChart.LineChartState.RecalculatePrediction | src/components/LineChart.tsx:114-140 | three points labelled Jul/Aug/Sep '25, the fitted line rounded to 0 decimals on spend charts and 2 otherwise |
| LineChart.LineChartState.ResetChart | src/components/LineChart.tsx:142-146 | the local series and projection go back to the props |
| LineChart.LineChartState.ToggleAnnotationForm | src/components/LineChart.tsx:189 | the form's visibility flips |
| LineChart.LineChartState.SetAnnotationMonth | src/components/LineChart.tsx:202-203 | the selected month is stored |
| LineChart.LineChartState.SetAnnotationNote | src/components/LineChart.tsx:213-214 | the typed note is stored |
| LineChart.LineChartState.HandleAddAnnotation | src/components/LineChart.tsx:148-155 | with a month, a note and a handler the annotation is handed on and the form cleared and hidden; otherwise nothing happens |
| LineChart.CsvStartsWithHeader | src/components/LineChart.tsx:64-70 | the exported text begins with "Month," and the title |
| LineChart.CsvLines | src/components/LineChart.tsx:62-70 | one line per plotted point after the header: the local series first, then the projection |
| ProfileChart.Column | src/components/ProfileChart.tsx:35 | one month/value pair per item, in data order, the value being the field the data key selects |
| ProfileChart.CsvHeader | src/components/ProfileChart.tsx:33-38 | the first line is "Month," and the title |
| ProfileChart.CsvLines | src/components/ProfileChart.tsx:33-38 | with plain cells there are |data| + 1 lines; line i + 1 is item i's month, a comma and the selected field |
| Page.MarketingMonths | src/app/page.tsx:250 | the reference list is the twelve months of the marketing series, in order |
| Page.IndexOf | src/app/page.tsx:251-252 | −1 exactly when the label is absent; otherwise a position holding the label with no earlier occurrence |
| Page.IndexOfFirst | src/app/page.tsx:251-252 | the position of the first occurrence is what the lookup returns |
| Page.JulyIsFirst | src/app/page.tsx:89-102 | Jul '24 is found at position 0 |
| Page.JanuaryIsSeventh | src/app/page.tsx:89-102 | Jan '25 is found at position 6 |
| Page.JuneIsLast | src/app/page.tsx:89-102 | Jun '25 is found at position 11 |
| Page.KeepIndicesIsWindow | src/app/page.tsx:255 | the point-by-point filter keeps exactly the points at positions start..end inclusive, in order |
| Page.FilterDataByDate | src/app/page.tsx:248-256 | pass-through when either label is missing, otherwise the inclusive window between the two positions; never longer than the input |
| Page.FilterReversed | src/app/page.tsx:255 | a range whose start comes after its end keeps nothing |
| Page.WindowInside | src/app/page.tsx:255 | a window inside the series is the slice start..end inclusive |
| Page.InitialRangeKeepsAll | src/app/page.tsx:58-61 | the initial range Jul '24 – Jun '25 passes any series of up to twelve points through unchanged |
| Page.FirstTen | src/app/page.tsx:258 | `.slice(0, 10)`: the prefix of length min(10, n), so a series shorter than ten comes back whole |
| Page.RecalculatePrediction | src/app/page.tsx:333-359 | exactly two points labelled May/Jun '25, the fitted line at n and n + 1 rounded to whole numbers |
| Page.InitialLabelsDisagreeWithRecompute | src/app/page.tsx:258-261 | the first projection is labelled Jul/Aug '25 although the ten points end at Apr '25; the following months, and the labels of the drag recompute, are May/Jun '25 |
| Page.Home.constructor | src/app/page.tsx:258-263 | the first ten marketing months, the first two of the three projected points, idle, full range, no annotations |
| Page.Home.HandleMouseDownMarketingSpend | src/app/page.tsx:301-307 | a drag starts only on the last point's label, anchored at the pointer |
| Page.Home.HandleMouseMoveMarketingSpend | src/app/page.tsx:309-325 | outside a drag nothing changes; during one the last value moves at 100 per pixel, is rounded to a whole number and is never negative; the two-month projection is recomputed; the anchor moves |
| Page.Home.HandleMouseUpMarketingSpend | src/app/page.tsx:327-331 | the drag ends and the data is untouched |
| Page.Home.HandleDateRangeChangeAsWritten | src/app/page.tsx:284-296 | with both dates the range takes the new labels, but the chart is refiltered through the previous range |
| Page.Home.HandleDateRangeChange | src/app/page.tsx:284-296 | with both dates the range takes the new labels and the chart is the first ten points of that range, with the first two projected points; otherwise nothing changes |
| Page.Home.ResetChartData | src/app/page.tsx:361-369 | the chart goes back to the first ten points of the current range and its first two projected points |
| Page.Home.AddAnnotation | src/app/page.tsx:371-374 | exactly one annotation appended at the end, earlier ones unchanged |
| Page.Home.MarketingSpendFiltered | src/app/page.tsx:269 | the series derived on each render is the chart data filtered through the range, never longer than it |
| Page.InitialViewShowsChart | src/app/page.tsx:269 | under the initial range the derived series is the chart data itself |
| Page.StaleRangeExample | src/app/page.tsx:289-292 | choosing Jan '25 – Jun '25 after the initial range: the previous range keeps ten points from Jul '24, the chosen one the six from Jan '25 |

## Left out

- Floating point: all arithmetic is on exact reals. IEEE rounding of the sums, the division and the multiplication is not modelled.
- Predict.Slope, Predict.Intercept: a series of fewer than two points gives a zero denominator, and the code then computes NaN. Here that case is a precondition (`|data| >= 2`) of the fit and of every handler path that refits.
- Number-to-text conversion of CSV cells is the parameter `show`. Its only assumption is that it yields no comma or line break where read-back is stated.
- `formatDate` (locale-dependent month names): a date-range change receives the already formatted labels.
- Timers, toasts, the loading flag, the date-picker visibility, `startDate`/`endDate`, the Blob download in both CSV exports, the PDF export, and all rendering and chart configuration.
- Page.Home.HandleDateRangeChangeAsWritten, Page.Home.HandleDateRangeChange, Page.Home.ResetChartData: only the state after the 500 ms timer is modelled. The intermediate renders are not.
- The render-time predictions for the burn, cash, runway and ARR series (page.tsx:264-275) apply the same filter and `linearRegression` to static data. They are covered by `Page.FilterDataByDate` and `Predict.LinearRegression` and are not modelled one by one.
- The marketing chart plots `marketingSpendChartData.slice(0, 10)` followed by the projection. That rendering expression is not modelled.
- Mouse-leave is bound to the mouse-up handlers (LineChart.tsx:231-234, page.tsx:848-851), so it is the same `HandleMouseUp` / `HandleMouseUpMarketingSpend`.
- LineChart.LineChartState.HandleMouseDown, Page.Home.HandleMouseDownMarketingSpend: these require a non-empty series. On an empty one the code reads a property of `undefined` and throws.
- Drag.MovesCompose: composition of moves is stated only for whole values at 100 per pixel with 0 decimals, no tooltip value and no clamping. Clamping breaks it in general: from 100, a move from y 0 to 2 clamps to 0 and a move back to 1 gives 100, while one move from 0 to 1 gives 0.
- The drag handlers copy the array and overwrite its last slot. Here the series is a `seq` field that is reassigned with the copy, so aliasing of the array is not modelled.

## Findings

| source | as written | input that shows it | evidently intended | confidence | as-written member | corrected member |
|---|---|---|---|---|---|---|
| src/app/page.tsx:289-292 | the timer callback sets the new range, then refilters through `filterDataByDate`, which still sees the range from before the change | from the initial range, pick Jan '25 – Jun '25: the chart keeps ten points from Jul '24 instead of the six from Jan '25 | refilter through the range just chosen | not executed | Page.Home.HandleDateRangeChangeAsWritten, Page.StaleRangeExample | Page.Home.HandleDateRangeChange |
