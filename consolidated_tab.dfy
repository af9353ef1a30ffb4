/** The "BRÚJULA CONSOLIDADA" tab: the scale filter, the matrix of dimension means with
    its "SUMA" row and radar, and the compass of the chosen indicator type over the five
    dimensions. */
module ConsolidatedTab {
  import opened Wrappers
  import opened Frame
  import opened Catalog
  import opened Radar
  import opened Display
  import opened Aggregate

  /** What the tab shows: a warning when the scale has no features; the `KeyError` that
      stops the script at the first absent score column; otherwise the matrix, its radar
      and the compass. */
  datatype ConsolidatedOutcome =
    | NoData
    | MissingColumn(column: string)
    | Consolidated(preview: seq<SummaryRow>, radar: Chart, compass: View)

  /** Builds the matrix as the tab does: the dimension means per indicator type, every
      cell rounded to two decimals, the "SUMA" of the rounded cells, and the radar of
      those sums. */
  method BuildConsolidated(rows: seq<Feature>) returns (preview: seq<SummaryRow>, radar: Chart)
    requires rows != [] && CoversAll(rows)
    ensures preview == ConsolidatedPreview(rows)
    ensures IsTotalsRadar(radar, SummaryTotals(rows))
  {
    var columns := seq(4, j requires 0 <= j < 4 =>
      seq(5, m requires 0 <= m < 5 => DimensionMean(rows, Indicators[j], Dimensions[m])));

    preview := seq(5, m requires 0 <= m < 5 =>
      SummaryRow(DimensionName(Dimensions[m]), seq(4, j requires 0 <= j < 4 => columns[j][m])));
    preview := seq(|preview|, m requires 0 <= m < |preview| =>
      SummaryRow(preview[m].dimension, RoundAll(preview[m].cells)));

    var summary := SummaryRows(rows);
    forall m | 0 <= m < 5
      ensures preview[m] == summary[m]
    {
    }
    assert preview == summary;

    var totals := seq(4, j requires 0 <= j < 4 => Sum(seq(5, m requires 0 <= m < 5 => preview[m].cells[j])));
    radar := PlotTotals(totals);

    preview := preview + [SummaryRow("SUMA", totals)];
  }

  /** The consolidated compass matrix of indicator type `i`: for each dimension in tab
      order, a missing label and the unrounded mean of its five variable means. */
  function ConsolidatedCompassMatrix(rows: seq<Feature>, i: Indicator): seq<(Option<string>, real)>
    requires rows != [] && CoversAll(rows)
  {
    seq(5, m requires 0 <= m < 5 => (None, DimensionMean(rows, i, Dimensions[m])))
  }

  /** `df_consolidado_brújula` shown through `display_data_and_charts`: the five
      dimension names with the unrounded dimension means of indicator type `i`. The names
      are not keys of the label dictionary, so every label in the matrix and on the
      chart comes out missing. */
  method ShowConsolidatedCompass(rows: seq<Feature>, i: Indicator) returns (compass: View)
    requires rows != [] && CoversAll(rows)
    ensures compass.matrix == Some(ConsolidatedCompassMatrix(rows, i))
    ensures compass.chart.Some? && ClosedPolygon(compass.chart.value, ConsolidatedCompassMatrix(rows, i), DefaultRange)
    ensures forall m :: 0 <= m < 6 ==> compass.chart.value.theta[m] == None
  {
    var frame := seq(5, m requires 0 <= m < 5 => (DimensionName(Dimensions[m]), DimensionMean(rows, i, Dimensions[m])));
    compass := DisplayDataAndCharts(frame);

    forall m | 0 <= m < 5
      ensures LabelLookup(frame[m].0) == None
    {
      DimensionNameUnlabelled(Dimensions[m]);
    }
    assert compass.matrix.value == ConsolidatedCompassMatrix(rows, i);
  }

  /** The content of the consolidated tab for the chosen scale and indicator type. */
  method ConsolidatedContent(t: Table, scale: Scale, i: Indicator) returns (outcome: ConsolidatedOutcome)
    requires WellFormed(t)
    ensures var f := SelectPrefix(t, ScalePrefix(scale));
      && (outcome.NoData? <==> f.rows == [])
      && (outcome.MissingColumn? <==> f.rows != [] && FirstMissing(AllColumns(), f.columns).Some?)
      && (outcome.MissingColumn? ==> outcome.column == FirstMissing(AllColumns(), f.columns).value)
    ensures outcome.Consolidated? ==>
      var f := SelectPrefix(t, ScalePrefix(scale));
      && f.rows != [] && CoversAll(f.rows)
      && outcome.preview == ConsolidatedPreview(f.rows)
      && IsTotalsRadar(outcome.radar, SummaryTotals(f.rows))
      && outcome.compass.matrix == Some(ConsolidatedCompassMatrix(f.rows, i))
      && outcome.compass.chart.Some?
      && ClosedPolygon(outcome.compass.chart.value, ConsolidatedCompassMatrix(f.rows, i), DefaultRange)
  {
    var filtered := SelectPrefix(t, ScalePrefix(scale));
    if filtered.rows == [] {
      return NoData;
    }

    var missing := FirstMissing(AllColumns(), filtered.columns);
    if missing.Some? {
      return MissingColumn(missing.value);
    }
    AllColumnsPresent(filtered);

    var preview, radar := BuildConsolidated(filtered.rows);
    var compass := ShowConsolidatedCompass(filtered.rows, i);
    outcome := Consolidated(preview, radar, compass);
  }
}
