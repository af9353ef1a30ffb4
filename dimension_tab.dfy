/** One of the five dimension tabs (`create_tab_content`): the scale filter, the matrix
    of means with its "Totales" row and radar, the compass of the chosen indicator type,
    and the map of the chosen variable. */
module DimensionTab {
  import opened Wrappers
  import opened Frame
  import opened Catalog
  import opened Colors
  import opened Radar
  import opened Display
  import opened FoliumMap
  import opened Aggregate

  /** The map layer of the territorialisation section: the chosen label, the column it
      names, the tooltip fields with their aliases and the fill colour of each feature. */
  datatype MapLayer = MapLayer(
    variable: string,
    column: string,
    fields: seq<string>,
    aliases: seq<string>,
    colors: seq<string>)

  /** What a tab shows: a warning when the scale has no features; the `KeyError` that
      stops the script at the first absent score column; otherwise the matrix, its totals
      radar, the compass of the chosen indicator type, the variable options and the map. */
  datatype TabOutcome =
    | NoData
    | MissingColumn(column: string)
    | Tab(preview: seq<PreviewRow>, radar: Chart, compass: View, options: seq<string>, layer: MapLayer)

  // ---------------------------------------------------------------------------
  // Variables of the chosen indicator type
  // ---------------------------------------------------------------------------

  /** `existing_selected_variables`: the columns `{prefix}{v}` of the dimension that the
      filtered frame has, in the order of the dimension's variables. */
  function ExistingVariables(i: Indicator, d: Dimension, columns: set<string>): seq<string> {
    Filter(SelectedVariables(i, d), (v: string) => v in columns)
  }

  /** The existing variables are exactly the selected columns the frame has, in the
      order of the dimension's variables. */
  lemma ExistingVariablesInOrder(i: Indicator, d: Dimension, columns: set<string>)
    ensures forall v :: v in ExistingVariables(i, d, columns) <==> v in SelectedVariables(i, d) && v in columns
    ensures IsSubsequence(ExistingVariables(i, d, columns), SelectedVariables(i, d))
  {
    FilterIsSubsequence(SelectedVariables(i, d), (v: string) => v in columns);
  }

  /** Once the matrix was built, none of the twenty columns of the dimension is absent,
      so every selected variable exists and the "no variables" warning cannot appear. */
  lemma ExistingVariablesComplete(i: Indicator, d: Dimension, columns: set<string>)
    requires FirstMissing(DimensionColumns(d), columns).None?
    ensures ExistingVariables(i, d, columns) == SelectedVariables(i, d)
    ensures ExistingVariables(i, d, columns) != []
  {
    var keep := (v: string) => v in columns;
    forall v | v in SelectedVariables(i, d)
      ensures keep(v)
    {
      assert v in DimensionColumns(d);
    }
    FilterAll(SelectedVariables(i, d), keep);
  }

  /** `vars_to_display`: each existing column with its label, in order. */
  function DisplayPairs(existing: seq<string>): seq<(string, string)>
    requires forall k :: 0 <= k < |existing| ==> LabelLookup(existing[k]).Some?
  {
    seq(|existing|, k requires 0 <= k < |existing| => (existing[k], LabelLookup(existing[k]).value))
  }

  /** The five columns of `d` under indicator type `i`, each with the label of its
      variable. */
  function LabelPairs(i: Indicator, d: Dimension): seq<(string, string)> {
    seq(5, k requires 0 <= k < 5 => (SelectedVariables(i, d)[k], VariableLabel(d, k)))
  }

  /** Every selected column has a label, and the dictionary of the selectbox pairs each
      with the label of its own variable. */
  lemma DisplayPairsOfSelected(i: Indicator, d: Dimension)
    ensures forall m :: 0 <= m < 5 ==> LabelLookup(SelectedVariables(i, d)[m]).Some?
    ensures DisplayPairs(SelectedVariables(i, d)) == LabelPairs(i, d)
  {
    forall m | 0 <= m < 5
      ensures LabelLookup(SelectedVariables(i, d)[m]) == Some(VariableLabel(d, m))
    {
      LabelOfEveryColumn(i, d, m);
    }
  }

  /** `list(vars_to_display.values())`: the options of the variable selectbox. */
  function Options(pairs: seq<(string, string)>): (r: seq<string>)
    ensures |r| == |pairs|
  {
    seq(|pairs|, k requires 0 <= k < |pairs| => pairs[k].1)
  }

  /** The position of the first pair whose value is `name`: the generator
      `next(key for key, value in ... if value == name)`, `None` where it raises
      `StopIteration`. */
  function FindValue(pairs: seq<(string, string)>, name: string): (r: Option<nat>)
    ensures r.Some? <==> exists k :: 0 <= k < |pairs| && pairs[k].1 == name
    ensures r.Some? ==> r.value < |pairs| && pairs[r.value].1 == name
    ensures r.Some? ==> forall j :: 0 <= j < r.value ==> pairs[j].1 != name
  {
    if pairs == [] then None
    else if pairs[0].1 == name then Some(0)
    else match FindValue(pairs[1..], name)
      case None =>
        assert forall k :: 1 <= k < |pairs| ==> pairs[k] == pairs[1..][k - 1];
        None
      case Some(j) => Some(j + 1)
  }

  /** Choosing the label of variable `k` selects column `k`: the five labels of a
      dimension are distinct, so the reverse lookup finds no earlier key. */
  lemma ChosenLabelSelectsColumn(i: Indicator, d: Dimension, k: nat)
    requires k < 5
    ensures FindValue(LabelPairs(i, d), VariableLabel(d, k)) == Some(k)
  {
    var pairs := LabelPairs(i, d);
    assert pairs[k].1 == VariableLabel(d, k);
    var r := FindValue(pairs, VariableLabel(d, k));
    if r.value != k {
      LabelsDistinct(d, r.value, k);
    }
  }

  // ---------------------------------------------------------------------------
  // The matrix (`df_preview`)
  // ---------------------------------------------------------------------------

  /** Builds the matrix as the tab does: the means of the twenty columns, the codes
      mapped to labels, the unrounded totals appended as "Totales", and only then every
      cell rounded to two decimals. */
  method BuildPreview(rows: seq<Feature>, d: Dimension) returns (preview: seq<PreviewRow>, totals: seq<real>)
    requires rows != [] && CoversDimension(rows, d)
    ensures preview == DimensionPreview(rows, d)
    ensures totals == TabTotals(rows, d)
  {
    var vars := DimensionVars(d);
    var columns := seq(4, j requires 0 <= j < 4 => IndicatorMeans(rows, Indicators[j], d));
    var codes := seq(5, k requires 0 <= k < 5 => Code(Derechos, vars[k]));

    preview := seq(5, k requires 0 <= k < 5 =>
      PreviewRow(LabelLookup(codes[k]), seq(4, j requires 0 <= j < 4 => columns[j][k])));

    totals := seq(4, j requires 0 <= j < 4 => Sum(columns[j]));
    preview := preview + [PreviewRow(Some("Totales"), totals)];

    ghost var unrounded := preview;
    preview := seq(|preview|, k requires 0 <= k < |preview| =>
      PreviewRow(preview[k].variable, RoundAll(preview[k].cells)));

    ghost var expected := DimensionPreview(rows, d);
    forall k | 0 <= k < 6
      ensures preview[k] == expected[k]
    {
      if k < 5 {
        assert unrounded[k].cells == VariableCells(rows, d, k);
      }
    }
  }

  // ---------------------------------------------------------------------------
  // The compass of the chosen indicator type
  // ---------------------------------------------------------------------------

  /** The compass matrix of indicator type `i`: each variable of `d` under its label, with
      the mean of its column. */
  function CompassMatrix(rows: seq<Feature>, i: Indicator, d: Dimension): seq<(Option<string>, real)>
    requires rows != [] && CoversDimension(rows, d)
  {
    seq(5, k requires 0 <= k < 5 => (Some(VariableLabel(d, k)), Mean(rows, SelectedVariables(i, d)[k])))
  }

  /** The five labels of a dimension, in order. */
  function VariableOptions(d: Dimension): seq<string> {
    seq(5, k requires 0 <= k < 5 => VariableLabel(d, k))
  }

  /** `df_for_charts` shown through `display_data_and_charts`, and the dictionary
      `vars_to_display`: every selected column exists, so both cover all five variables. */
  method ShowIndicator(rows: seq<Feature>, i: Indicator, d: Dimension, existing: seq<string>)
    returns (compass: View, pairs: seq<(string, string)>)
    requires rows != [] && CoversDimension(rows, d) && existing == SelectedVariables(i, d)
    ensures compass.matrix == Some(CompassMatrix(rows, i, d))
    ensures compass.chart.Some? && ClosedPolygon(compass.chart.value, CompassMatrix(rows, i, d), DefaultRange)
    ensures pairs == LabelPairs(i, d) && Options(pairs) == VariableOptions(d)
  {
    var chartsData := seq(|existing|, k requires 0 <= k < |existing| => (existing[k], Mean(rows, existing[k])));
    compass := DisplayDataAndCharts(chartsData);
    DisplayPairsOfSelected(i, d);
    var matrix := CompassMatrix(rows, i, d);
    assert |compass.matrix.value| == 5;
    forall k | 0 <= k < 5
      ensures compass.matrix.value[k] == matrix[k]
    {
      assert chartsData[k] == (SelectedVariables(i, d)[k], Mean(rows, SelectedVariables(i, d)[k]));
      LabelOfEveryColumn(i, d, k);
    }
    assert compass.matrix.value == matrix;
    pairs := DisplayPairs(existing);
  }

  // ---------------------------------------------------------------------------
  // The map (territorialisation)
  // ---------------------------------------------------------------------------

  /** `tooltip_fields`. */
  const TooltipFields: seq<string> := ["COD", "DEPARTAMENTO", "MUNICIPIO", "LOCALIDAD", "MANZANERO", "VALOR"]

  /** `tooltip_aliases` for the chosen label. */
  function TooltipAliases(name: string): seq<string> {
    ["Código:", "Departamento:", "Municipio:", "Localidad:", "Manzanero:", name + ":"]
  }

  /** Whatever columns the frame has, the tooltip keeps `VALOR`, last, with the alias at
      position 5. */
  lemma TooltipEndsWithValor(columns: set<string>)
    ensures var fields := ExistingFields(TooltipFields, columns + {"VALOR", "VARIABLE"});
      |fields| > 0 && fields[|fields| - 1] == "VALOR"
    ensures IndexOf(TooltipFields, "VALOR") == Some(5)
  {
    var keep := (f: string) => f in columns + {"VALOR", "VARIABLE"};
    assert TooltipFields == TooltipFields[..5] + ["VALOR"];
    FilterAppend(TooltipFields[..5], ["VALOR"], keep);
    assert Filter(["VALOR"], keep) == ["VALOR"];
  }

  /** The map of the `choice`-th option: the reverse lookup of its label, the copy of that
      column as `VALOR` (with `VARIABLE` beside it), the tooltip and the fill colours. The
      selected columns are all in the frame, so the "column not found" error is never
      shown. */
  method Territorialize(filtered: Table, i: Indicator, d: Dimension, pairs: seq<(string, string)>, choice: nat)
    returns (layer: MapLayer)
    requires pairs == LabelPairs(i, d)
    requires CoversDimension(filtered.rows, d) && choice < 5
    requires forall c :: c in SelectedVariables(i, d) ==> c in filtered.columns
    ensures layer.variable == VariableLabel(d, choice)
    ensures layer.column == SelectedVariables(i, d)[choice]
    ensures layer.fields == ExistingFields(TooltipFields, filtered.columns + {"VALOR", "VARIABLE"})
    ensures |layer.aliases| == |layer.fields| > 0
    ensures layer.fields[|layer.fields| - 1] == "VALOR"
    ensures layer.aliases[|layer.aliases| - 1] == VariableLabel(d, choice) + ":"
    ensures forall j :: 0 <= j < |layer.fields| ==>
      IndexOf(TooltipFields, layer.fields[j]).Some? &&
      layer.aliases[j] == TooltipAliases(layer.variable)[IndexOf(TooltipFields, layer.fields[j]).value]
    ensures layer.colors == FillColors(filtered.rows, layer.column)
  {
    var name := Options(pairs)[choice];
    ChosenLabelSelectsColumn(i, d, choice);
    var column := pairs[FindValue(pairs, name).value].0;
    if column !in filtered.columns {
      assert false;
    }

    var mapColumns := filtered.columns + {"VALOR", "VARIABLE"};
    var fields, aliases := TooltipColumns(TooltipFields, TooltipAliases(name), mapColumns);
    TooltipEndsWithValor(filtered.columns);

    assert column in SelectedVariables(i, d);
    var colors := FillColors(filtered.rows, column);
    layer := MapLayer(name, column, fields, aliases, colors);
  }

  // ---------------------------------------------------------------------------
  // The whole tab
  // ---------------------------------------------------------------------------

  /** The content of the tab of dimension `d`, for the chosen scale, indicator type and
      variable option (the position of the label in the last selectbox). */
  method CreateTabContent(t: Table, d: Dimension, scale: Scale, i: Indicator, choice: nat)
    returns (outcome: TabOutcome)
    requires WellFormed(t) && choice < 5
    ensures var f := SelectPrefix(t, ScalePrefix(scale));
      && (outcome.NoData? <==> f.rows == [])
      && (outcome.MissingColumn? <==> f.rows != [] && FirstMissing(DimensionColumns(d), f.columns).Some?)
      && (outcome.MissingColumn? ==> outcome.column == FirstMissing(DimensionColumns(d), f.columns).value)
    ensures outcome.Tab? ==>
      var f := SelectPrefix(t, ScalePrefix(scale));
      && f.rows != [] && CoversDimension(f.rows, d)
      && outcome.preview == DimensionPreview(f.rows, d)
      && IsTotalsRadar(outcome.radar, TabTotals(f.rows, d))
      && outcome.compass.matrix == Some(CompassMatrix(f.rows, i, d))
      && outcome.compass.chart.Some?
      && ClosedPolygon(outcome.compass.chart.value, CompassMatrix(f.rows, i, d), DefaultRange)
      && outcome.options == VariableOptions(d)
      && outcome.layer.variable == VariableLabel(d, choice)
      && outcome.layer.column == SelectedVariables(i, d)[choice]
      && outcome.layer.fields == ExistingFields(TooltipFields, f.columns + {"VALOR", "VARIABLE"})
      && |outcome.layer.aliases| == |outcome.layer.fields|
      && (forall j :: 0 <= j < |outcome.layer.fields| ==>
            IndexOf(TooltipFields, outcome.layer.fields[j]).Some? &&
            outcome.layer.aliases[j] == TooltipAliases(outcome.layer.variable)[IndexOf(TooltipFields, outcome.layer.fields[j]).value])
      && outcome.layer.colors == FillColors(f.rows, outcome.layer.column)
  {
    var filtered := SelectPrefix(t, ScalePrefix(scale));
    if filtered.rows == [] {
      return NoData;
    }

    var missing := FirstMissing(DimensionColumns(d), filtered.columns);
    if missing.Some? {
      return MissingColumn(missing.value);
    }
    DimensionColumnsPresent(filtered, d);

    var preview, totals := BuildPreview(filtered.rows, d);
    var radar := PlotTotals(totals);

    var existing := ExistingVariables(i, d, filtered.columns);
    ExistingVariablesComplete(i, d, filtered.columns);
    if existing == [] {
      assert false;
    }

    var compass, pairs := ShowIndicator(filtered.rows, i, d, existing);
    forall c | c in SelectedVariables(i, d)
      ensures c in filtered.columns
    {
      assert c in DimensionColumns(d);
    }
    var layer := Territorialize(filtered, i, d, pairs, choice);
    outcome := Tab(preview, radar, compass, Options(pairs), layer);
  }
}
