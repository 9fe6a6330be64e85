/**
 * The editable line chart component (src/components/LineChart.tsx): its
 * state, the drag-to-edit handlers on the last point, the local
 * three-month re-projection, the reset, the CSV text and the annotation
 * form's submit guard.
 */
module LineChart {
  import opened Series
  import opened Predict
  import opened Drag
  import Csv

  /** The labels the component's own re-projection uses. */
  const RecalcMonths: seq<string> := ["Jul '25", "Aug '25", "Sep '25"]

  class LineChartState {
    /** Props: the series and projection handed in by the page, the title, whether a handler for new annotations was passed. */
    var data: seq<Point>
    var predictionData: seq<Point>
    const title: string
    const canAnnotate: bool

    /** Component state. */
    var chartData: seq<Point>
    var predData: seq<Point>
    var isDragging: bool
    var dragStart: Option<Anchor>
    var annotationMonth: string
    var annotationNote: string
    var showAnnotationForm: bool

    /** A drag is in progress exactly when there is an anchor. */
    ghost predicate Valid()
      reads this
    {
      isDragging <==> dragStart.Some?
    }

    /** The first render: local copies of the props, idle, the annotation form empty and hidden. */
    constructor (data: seq<Point>, predictionData: seq<Point>, title: string, canAnnotate: bool)
      ensures Valid()
      ensures this.data == data && this.predictionData == predictionData
      ensures this.title == title && this.canAnnotate == canAnnotate
      ensures chartData == data && predData == predictionData
      ensures !isDragging && dragStart == None
      ensures annotationMonth == "" && annotationNote == "" && !showAnnotationForm
    {
      this.data := data;
      this.predictionData := predictionData;
      this.title := title;
      this.canAnnotate := canAnnotate;
      chartData := data;
      predData := predictionData;
      isDragging := false;
      dragStart := None;
      annotationMonth := "";
      annotationNote := "";
      showAnnotationForm := false;
    }

    /** New props from the parent overwrite the local series and projection (the effect on [data, predictionData]). */
    method SyncProps(newData: seq<Point>, newPrediction: seq<Point>)
      requires Valid()
      modifies this
      ensures Valid()
      ensures data == newData && predictionData == newPrediction
      ensures chartData == newData && predData == newPrediction
      ensures isDragging == old(isDragging) && dragStart == old(dragStart)
      ensures annotationMonth == old(annotationMonth) && annotationNote == old(annotationNote)
      ensures showAnnotationForm == old(showAnnotationForm)
    {
      data, predictionData := newData, newPrediction;
      chartData, predData := newData, newPrediction;
    }

    /** The plotted series: the local data followed by the local projection. */
    function CombinedData(): (r: seq<Point>)
      reads this
      ensures |r| == |chartData| + |predData|
      ensures r[..|chartData|] == chartData && r[|chartData|..] == predData
    {
      chartData + predData
    }

    /** The exported CSV text of the plotted series. */
    function CsvContent(show: real -> string): string
      reads this
    {
      Csv.Export(title, CombinedData(), show)
    }

    /** Pressing on the chart starts a drag, anchored at the pointer, only on the last point's label. */
    method HandleMouseDown(activeLabel: Option<string>, chartX: real, chartY: real)
      requires Valid() && |chartData| >= 1
      modifies this
      ensures Valid()
      ensures activeLabel == Some(old(chartData)[|old(chartData)| - 1].month) ==>
        isDragging && dragStart == Some(Anchor(chartX, chartY))
      ensures activeLabel != Some(old(chartData)[|old(chartData)| - 1].month) ==>
        isDragging == old(isDragging) && dragStart == old(dragStart)
      ensures chartData == old(chartData) && predData == old(predData)
      ensures data == old(data) && predictionData == old(predictionData)
      ensures annotationMonth == old(annotationMonth) && annotationNote == old(annotationNote)
      ensures showAnnotationForm == old(showAnnotationForm)
    {
      var lastDataPoint := chartData[|chartData| - 1];
      if activeLabel == Some(lastDataPoint.month) {
        isDragging := true;
        dragStart := Some(Anchor(chartX, chartY));
      }
    }

    /**
     * Moving the pointer during a drag sets the last value from the
     * vertical travel since the anchor (rounded, never negative), re-projects
     * from the edited series and re-anchors at the pointer; outside a drag it
     * does nothing. A refit needs two points, hence the precondition.
     */
    method HandleMouseMove(tooltip: Option<real>, chartX: real, chartY: real)
      requires Valid()
      requires isDragging ==> |chartData| >= 2
      modifies this
      ensures Valid()
      ensures !old(isDragging) ==>
        chartData == old(chartData) && predData == old(predData) && !isDragging && dragStart == old(dragStart)
      ensures old(isDragging) ==>
        && |old(chartData)| >= 2
        && chartData == Moved(old(chartData), tooltip, old(dragStart).value.y, chartY, Sensitivity(title), Digits(title))
        && predData == Projection(chartData, RecalcMonths, Digits(title))
        && isDragging && dragStart == Some(Anchor(chartX, chartY))
      ensures data == old(data) && predictionData == old(predictionData)
      ensures annotationMonth == old(annotationMonth) && annotationNote == old(annotationNote)
      ensures showAnnotationForm == old(showAnnotationForm)
    {
      if !isDragging || dragStart.None? {
        return;
      }
      var updatedData := Moved(chartData, tooltip, dragStart.value.y, chartY, Sensitivity(title), Digits(title));
      var newPrediction := RecalculatePrediction(updatedData);
      chartData := updatedData;
      predData := newPrediction;
      dragStart := Some(Anchor(chartX, chartY));
    }

    /** Releasing the button, or leaving the chart, ends any drag; the data is untouched. */
    method HandleMouseUp()
      modifies this
      ensures Valid()
      ensures !isDragging && dragStart == None
      ensures chartData == old(chartData) && predData == old(predData)
      ensures data == old(data) && predictionData == old(predictionData)
      ensures annotationMonth == old(annotationMonth) && annotationNote == old(annotationNote)
      ensures showAnnotationForm == old(showAnnotationForm)
    {
      isDragging := false;
      dragStart := None;
    }

    /**
     * The component's own copy of the regression: three points labelled
     * Jul/Aug/Sep '25, rounded to whole numbers on spend charts and to two
     * decimals otherwise.
     */
    method RecalculatePrediction(d: seq<Point>) returns (predictions: seq<Point>)
      requires |d| >= 2
      ensures predictions == Projection(d, RecalcMonths, Digits(title))
      ensures |predictions| == 3 && Months(predictions) == RecalcMonths
    {
      var slope, intercept;
      slope, intercept, predictions := FitAndProject(d, RecalcMonths, Digits(title));
      ProjectionLabels(Slope(d), Intercept(d), |d|, RecalcMonths, Digits(title));
    }

    /** Reset: back to the props, whatever was dragged. */
    method ResetChart()
      requires Valid()
      modifies this
      ensures Valid()
      ensures chartData == data && predData == predictionData
      ensures data == old(data) && predictionData == old(predictionData)
      ensures isDragging == old(isDragging) && dragStart == old(dragStart)
      ensures annotationMonth == old(annotationMonth) && annotationNote == old(annotationNote)
      ensures showAnnotationForm == old(showAnnotationForm)
    {
      chartData := data;
      predData := predictionData;
    }

    /** The pencil button shows or hides the annotation form. */
    method ToggleAnnotationForm()
      modifies this`showAnnotationForm
      ensures showAnnotationForm == !old(showAnnotationForm)
    {
      showAnnotationForm := !showAnnotationForm;
    }

    /** Choosing a month in the form's selector. */
    method SetAnnotationMonth(month: string)
      modifies this`annotationMonth
      ensures annotationMonth == month
    {
      annotationMonth := month;
    }

    /** Typing in the form's note field. */
    method SetAnnotationNote(note: string)
      modifies this`annotationNote
      ensures annotationNote == note
    {
      annotationNote := note;
    }

    /**
     * Submitting the form: only with a month, a note and a handler is the
     * annotation handed to the page (returned here), after which the form
     * is cleared and hidden; otherwise nothing happens.
     */
    method HandleAddAnnotation() returns (submitted: Option<Annotation>)
      modifies this`annotationMonth, this`annotationNote, this`showAnnotationForm
      ensures old(annotationMonth) != "" && old(annotationNote) != "" && canAnnotate ==>
        && submitted == Some(Annotation(old(annotationMonth), old(annotationNote)))
        && annotationMonth == "" && annotationNote == "" && !showAnnotationForm
      ensures !(old(annotationMonth) != "" && old(annotationNote) != "" && canAnnotate) ==>
        && submitted == None
        && annotationMonth == old(annotationMonth) && annotationNote == old(annotationNote)
        && showAnnotationForm == old(showAnnotationForm)
    {
      if annotationMonth != "" && annotationNote != "" && canAnnotate {
        submitted := Some(Annotation(annotationMonth, annotationNote));
        annotationMonth := "";
        annotationNote := "";
        showAnnotationForm := false;
      } else {
        submitted := None;
      }
    }
  }

  /** The exported text starts with the header "Month,<title>". */
  lemma CsvStartsWithHeader(chart: LineChartState, show: real -> string)
    ensures "Month," + chart.title <= chart.CsvContent(show)
  {
    Csv.ExportStartsWithHeader(chart.title, chart.CombinedData(), show);
  }

  /**
   * With plain labels and numbers the exported text of a chart has one
   * line per plotted point after the header: the local data first, then
   * the projection.
   */
  lemma CsvLines(title: string, chartData: seq<Point>, predData: seq<Point>, show: real -> string)
    requires ',' !in title && '\n' !in title
    requires forall p :: p in chartData + predData ==> ',' !in p.month && '\n' !in p.month
    requires forall p :: p in chartData + predData ==> ',' !in show(p.value) && '\n' !in show(p.value)
    ensures |Csv.Split(Csv.Export(title, chartData + predData, show), '\n')| == |chartData| + |predData| + 1
    ensures forall i :: 0 <= i < |chartData| ==>
      Csv.Split(Csv.Export(title, chartData + predData, show), '\n')[i + 1]
      == chartData[i].month + "," + show(chartData[i].value)
    ensures forall j :: 0 <= j < |predData| ==>
      Csv.Split(Csv.Export(title, chartData + predData, show), '\n')[|chartData| + j + 1]
      == predData[j].month + "," + show(predData[j].value)
  {
    var all := chartData + predData;
    assert forall i :: 0 <= i < |all| ==> all[i] in all;
    Csv.ExportReadsBack(title, all, show);
    assert forall i :: 0 <= i < |chartData| ==> all[i] == chartData[i];
    assert forall j :: 0 <= j < |predData| ==> all[|chartData| + j] == predData[j];
  }
}
