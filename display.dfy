/** `display_data_and_charts`: a (`VARIABLE`, `VALOR`) frame is shown as a matrix and as
    a radar chart, after its `VARIABLE` column is mapped through the label dictionary. */
module Display {
  import opened Wrappers
  import opened Catalog
  import opened Radar

  /** The matrix (absent when the frame is empty) and the chart (absent, with a warning,
      when the frame is empty). A mapped label is `None` where `Series.map` gives NaN. */
  datatype View = View(matrix: Option<seq<(Option<string>, real)>>, chart: Option<Chart>)

  /** Shows a frame of (column code, value) rows. */
  method DisplayDataAndCharts(df: seq<(string, real)>) returns (view: View)
    ensures view.matrix.None? <==> df == []
    ensures view.chart.None? <==> df == []
    ensures view.matrix.Some? ==>
      && |view.matrix.value| == |df|
      && forall k :: 0 <= k < |df| ==> view.matrix.value[k] == (LabelLookup(df[k].0), df[k].1)
    ensures view.chart.Some? ==>
      && view.chart.value.Polygon?
      && |view.chart.value.theta| == |df| + 1
      && |view.chart.value.r| == |df| + 1
      && (forall k :: 0 <= k < |df| ==>
            view.chart.value.theta[k] == LabelLookup(df[k].0) && view.chart.value.r[k] == df[k].1)
      && view.chart.value.theta[|df|] == view.chart.value.theta[0]
      && view.chart.value.r[|df|] == view.chart.value.r[0]
      && view.chart.value.range == DefaultRange
      && view.chart.value.ticks == Ticks(DefaultRange)
  {
    var chartData := seq(|df|, k requires 0 <= k < |df| => (LabelLookup(df[k].0), df[k].1));

    var matrix: Option<seq<(Option<string>, real)>> := None;
    if chartData != [] {
      matrix := Some(chartData);
    }

    var chart: Option<Chart> := None;
    if chartData != [] {
      var c := PlotRadarChart(chartData, DefaultRange);
      chart := Some(c);
    }
    view := View(matrix, chart);
  }
}
