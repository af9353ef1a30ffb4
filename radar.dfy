/** The radar chart (`plot_radar_chart`): the category and value columns of a small
    frame become the angular and radial coordinates of a closed polygon. */
module Radar {
  import opened Wrappers
  import opened Catalog

  /** The radial axis range `[lo, hi]` (`radar_range`). */
  datatype Range = Range(lo: int, hi: int)

  /** The default range of one indicator's five variables: scores 0 to 4. */
  const DefaultRange: Range := Range(0, 4)

  /** The range of the totals charts: five variables of at most 4 each. */
  const TotalsRange: Range := Range(0, 20)

  /** The outcome: a warning and no chart, or the polygon Plotly draws. A category is
      `None` where the frame holds NaN. */
  datatype Chart =
    | NoCategories
    | Polygon(theta: seq<Option<string>>, r: seq<real>, range: Range, ticks: seq<int>)

  /** The radial tick marks: every 4 up to 20 on the totals scale, every unit otherwise. */
  function Ticks(range: Range): seq<int> {
    if range.hi == 20 then [0, 4, 8, 12, 16, 20] else [0, 1, 2, 3, 4]
  }

  /** Draws the rows of `data` (category, value) as a polygon closed by repeating its
      first vertex; an empty frame gives a warning and no chart. */
  method PlotRadarChart(data: seq<(Option<string>, real)>, range: Range) returns (chart: Chart)
    ensures chart.NoCategories? <==> data == []
    ensures chart.Polygon? ==>
      && |chart.theta| == |chart.r| == |data| + 1
      && (forall k :: 0 <= k < |data| ==> chart.theta[k] == data[k].0 && chart.r[k] == data[k].1)
      && chart.theta[|data|] == data[0].0
      && chart.r[|data|] == data[0].1
      && chart.range == range
      && chart.ticks == Ticks(range)
  {
    var categorias := seq(|data|, k requires 0 <= k < |data| => data[k].0);
    var valores := seq(|data|, k requires 0 <= k < |data| => data[k].1);

    if categorias == [] {
      return NoCategories;
    }

    categorias := categorias + [categorias[0]];
    valores := valores + [valores[0]];

    chart := Polygon(categorias, valores, range, Ticks(range));
  }

  /** `chart` draws the rows of `data` as vertices in order, closed on the first row, on
      `range` with its ticks. */
  ghost predicate ClosedPolygon(chart: Chart, data: seq<(Option<string>, real)>, range: Range)
    requires data != []
  {
    && chart.Polygon?
    && |chart.theta| == |chart.r| == |data| + 1
    && (forall k :: 0 <= k < |data| ==> chart.theta[k] == data[k].0 && chart.r[k] == data[k].1)
    && chart.theta[|data|] == data[0].0
    && chart.r[|data|] == data[0].1
    && chart.range == range
    && chart.ticks == Ticks(range)
  }

  /** The totals radar of a matrix: one vertex per indicator type, named as the matrix
      column and placed at that type's total, closed on its first vertex, on the 0 to 20
      scale. */
  ghost predicate IsTotalsRadar(chart: Chart, totals: seq<real>)
    requires |totals| == 4
  {
    && chart.Polygon?
    && |chart.theta| == |chart.r| == 5
    && (forall j :: 0 <= j < 4 ==> chart.theta[j] == Some(IndicatorName(Indicators[j])) && chart.r[j] == totals[j])
    && chart.theta[4] == chart.theta[0]
    && chart.r[4] == chart.r[0]
    && chart.range == TotalsRange
    && chart.ticks == [0, 4, 8, 12, 16, 20]
  }

  /** `plot_radar_chart(totales_df, "Indicador", "Suma", radar_range=[0, 20])`: the frame
      of (indicator type, total) rows drawn on the totals scale. */
  method PlotTotals(totals: seq<real>) returns (chart: Chart)
    requires |totals| == 4
    ensures IsTotalsRadar(chart, totals)
  {
    var totalsFrame := seq(4, j requires 0 <= j < 4 => (Some(IndicatorName(Indicators[j])), totals[j]));
    chart := PlotRadarChart(totalsFrame, TotalsRange);
  }
}
