/** The two summary tables of the compass, as functions of the selected rows: the
    per-dimension table (five variables by four indicator types, then "Totales") and the
    consolidated table (five dimensions by four indicator types, then "SUMA"). */
module Aggregate {
  import opened Wrappers
  import opened Frame
  import opened Catalog

  /** Every row has each of the columns `cs`. */
  ghost predicate HasColumns(rows: seq<Feature>, cs: seq<string>) {
    forall c :: c in cs ==> HasColumn(rows, c)
  }

  /** Every row has each of the columns `cs`, scored 0 to 4. */
  ghost predicate ColumnsInRange(rows: seq<Feature>, cs: seq<string>) {
    forall c :: c in cs ==> InRange(rows, c)
  }

  /** Every row has the twenty columns of dimension `d`. */
  ghost predicate CoversDimension(rows: seq<Feature>, d: Dimension) {
    forall i: Indicator :: HasColumns(rows, SelectedVariables(i, d))
  }

  /** Every row has the twenty columns of dimension `d`, scored 0 to 4. */
  ghost predicate DimensionInRange(rows: seq<Feature>, d: Dimension) {
    forall i: Indicator :: ColumnsInRange(rows, SelectedVariables(i, d))
  }

  /** Every row has all hundred score columns. */
  ghost predicate CoversAll(rows: seq<Feature>) {
    forall d: Dimension :: CoversDimension(rows, d)
  }

  /** Every row has all hundred score columns, scored 0 to 4. */
  ghost predicate AllInRange(rows: seq<Feature>) {
    forall d: Dimension :: DimensionInRange(rows, d)
  }

  /** The twenty score columns of a dimension, in the order the tab reads them: all five
      variables under "d-", then under "op-", "os-" and "n-". */
  function DimensionColumns(d: Dimension): seq<string> {
    SelectedVariables(Derechos, d) + SelectedVariables(ObrasPublicas, d)
      + SelectedVariables(OrganizacionSocial, d) + SelectedVariables(Normas, d)
  }

  /** The hundred score columns of all dimensions, in the order the consolidated tab
      reads them: each indicator type in turn, each dimension within it. */
  function AllColumns(): seq<string> {
    IndicatorColumns(Derechos) + IndicatorColumns(ObrasPublicas)
      + IndicatorColumns(OrganizacionSocial) + IndicatorColumns(Normas)
  }

  function IndicatorColumns(i: Indicator): seq<string> {
    SelectedVariables(i, ViviendaYSuelo) + SelectedVariables(i, Infraestructuras)
      + SelectedVariables(i, Equipamientos) + SelectedVariables(i, Accesibilidad)
      + SelectedVariables(i, DesarrolloLocal)
  }

  /** The first of `cs` that is not a column of the frame: the `KeyError` pandas raises
      when the comprehension reaches it. */
  function FirstMissing(cs: seq<string>, present: set<string>): (r: Option<string>)
    ensures r.None? <==> forall c :: c in cs ==> c in present
    ensures r.Some? ==> r.value in cs && r.value !in present
  {
    if cs == [] then None
    else if cs[0] !in present then Some(cs[0])
    else FirstMissing(cs[1..], present)
  }

  /** When none of the twenty columns of `d` is missing from a well-formed table, every
      row has them all. */
  lemma DimensionColumnsPresent(t: Table, d: Dimension)
    requires WellFormed(t)
    requires FirstMissing(DimensionColumns(d), t.columns).None?
    ensures CoversDimension(t.rows, d)
  {
    forall i: Indicator, c | c in SelectedVariables(i, d)
      ensures HasColumn(t.rows, c)
    {
      assert c in DimensionColumns(d);
    }
  }

  /** When none of the hundred columns is missing from a well-formed table, every row
      has them all. */
  lemma AllColumnsPresent(t: Table)
    requires WellFormed(t)
    requires FirstMissing(AllColumns(), t.columns).None?
    ensures CoversAll(t.rows)
  {
    forall d: Dimension, i: Indicator, c | c in SelectedVariables(i, d)
      ensures HasColumn(t.rows, c)
    {
      assert c in IndicatorColumns(i);
      assert c in AllColumns();
    }
  }

  // ---------------------------------------------------------------------------
  // The per-dimension table (`data_for_table`, `totales`, `df_preview`)
  // ---------------------------------------------------------------------------

  /** A row of the displayed matrix: its `Variable` cell (NaN as `None`) and one cell per
      indicator type. */
  datatype PreviewRow = PreviewRow(variable: Option<string>, cells: seq<real>)

  /** The means of the five variables of `d` under indicator type `i`: one column of the
      per-dimension table before rounding. */
  function IndicatorMeans(rows: seq<Feature>, i: Indicator, d: Dimension): seq<real>
    requires rows != [] && HasColumns(rows, SelectedVariables(i, d))
  {
    seq(5, k requires 0 <= k < 5 => Mean(rows, SelectedVariables(i, d)[k]))
  }

  /** `totales`: per indicator type, the sum of its five unrounded variable means. */
  function TabTotals(rows: seq<Feature>, d: Dimension): seq<real>
    requires rows != [] && CoversDimension(rows, d)
  {
    seq(4, j requires 0 <= j < 4 => Sum(IndicatorMeans(rows, Indicators[j], d)))
  }

  /** The unrounded cells of variable `k`: its mean under each indicator type. */
  function VariableCells(rows: seq<Feature>, d: Dimension, k: nat): seq<real>
    requires rows != [] && CoversDimension(rows, d) && k < 5
  {
    seq(4, j requires 0 <= j < 4 => IndicatorMeans(rows, Indicators[j], d)[k])
  }

  /** `df_preview` as displayed: the five variable rows labelled through the dictionary,
      then "Totales", every cell rounded to two decimals after the totals were summed. */
  function DimensionPreview(rows: seq<Feature>, d: Dimension): seq<PreviewRow>
    requires rows != [] && CoversDimension(rows, d)
  {
    seq(5, k requires 0 <= k < 5 =>
      PreviewRow(LabelLookup(Code(Derechos, DimensionVars(d)[k])), RoundAll(VariableCells(rows, d, k))))
    + [PreviewRow(Some("Totales"), RoundAll(TabTotals(rows, d)))]
  }

  /** The per-dimension matrix has the five variables of the dimension, in order, each
      under its display label, then the row "Totales". */
  lemma DimensionPreviewLabels(rows: seq<Feature>, d: Dimension)
    requires rows != [] && CoversDimension(rows, d)
    ensures var p := DimensionPreview(rows, d);
      && |p| == 6
      && (forall k :: 0 <= k < 5 ==> p[k].variable == Some(VariableLabel(d, k)))
      && p[5].variable == Some("Totales")
  {
    var p := DimensionPreview(rows, d);
    forall k | 0 <= k < 5
      ensures p[k].variable == Some(VariableLabel(d, k))
    {
      LabelOfEveryColumn(Derechos, d, k);
    }
  }

  /** Every row of the per-dimension matrix has one cell per indicator type. Each
      variable cell is the rounded mean of that variable's column under that indicator
      type; each "Totales" cell is the rounded sum of the five unrounded means above it. */
  lemma DimensionPreviewCells(rows: seq<Feature>, d: Dimension)
    requires rows != [] && CoversDimension(rows, d)
    ensures var p := DimensionPreview(rows, d);
      && |p| == 6
      && (forall k :: 0 <= k < 6 ==> |p[k].cells| == 4)
      && (forall k, j :: 0 <= k < 5 && 0 <= j < 4 ==>
            p[k].cells[j] == Round2(Mean(rows, SelectedVariables(Indicators[j], d)[k])))
      && (forall j :: 0 <= j < 4 ==>
            p[5].cells[j] == Round2(Sum(IndicatorMeans(rows, Indicators[j], d))))
  {
  }

  /** Because "Totales" is rounded after summing, it can differ from the sum of the five
      rounded cells shown above it, but by at most three hundredths. */
  lemma TotalesNearDisplayedSum(rows: seq<Feature>, d: Dimension, j: nat)
    requires rows != [] && CoversDimension(rows, d) && j < 4
    ensures var p := DimensionPreview(rows, d);
      var shown := Sum(seq(5, k requires 0 <= k < 5 => p[k].cells[j]));
      -0.03 <= p[5].cells[j] - shown <= 0.03
  {
    var p := DimensionPreview(rows, d);
    var means := IndicatorMeans(rows, Indicators[j], d);
    assert seq(5, k requires 0 <= k < 5 => p[k].cells[j]) == RoundAll(means);
    RoundedSumDrift(means);
  }

  /** Five features of the first municipality scoring 4, 3, 2, 4 and 3 on `d-a1`. */
  function ExampleRows(): seq<Feature> {
    [Feature("MUN-1-01", map["d-a1" := 4]), Feature("MUN-1-02", map["d-a1" := 3]),
     Feature("MUN-1-03", map["d-a1" := 2]), Feature("MUN-1-04", map["d-a1" := 4]),
     Feature("MUN-1-05", map["d-a1" := 3])]
  }

  /** All five are coded under the first municipality. */
  lemma ExampleRowsCoded()
    ensures forall f :: f in ExampleRows() ==> ScalePrefix(MunicipioSantaMaria) <= f.cod
  {
    var rows := ExampleRows();
    forall k | 0 <= k < 5
      ensures "MUN-1" <= rows[k].cod
    {
      assert rows[k].cod[..5] == "MUN-1";
    }
  }

  /** Beside a feature of the second municipality, the filter of the first keeps exactly
      the five. */
  lemma ExampleFilter()
    ensures ScalePrefix(MunicipioSantaMaria) == "MUN-1"
    ensures SelectPrefix(Table({"d-a1"}, ExampleRows() + [Feature("MUN-2-01", map["d-a1" := 0])]), "MUN-1").rows
      == ExampleRows()
  {
    var keep := (f: Feature) => "MUN-1" <= f.cod;
    var other := Feature("MUN-2-01", map["d-a1" := 0]);
    assert !keep(other) by {
      assert other.cod[4] != "MUN-1"[4];
    }
    ExampleRowsCoded();
    FilterAppend(ExampleRows(), [other], keep);
    FilterAll(ExampleRows(), keep);
    assert Filter([other], keep) == [];
  }

  /** Their mean is 3.2, and rounding to two decimals keeps it. */
  lemma ExampleMean()
    ensures Mean(ExampleRows(), "d-a1") == 3.2
    ensures Round2(Mean(ExampleRows(), "d-a1")) == 3.2
  {
    var rows := ExampleRows();
    assert ColumnSum(rows[4..], "d-a1") == 3;
    assert ColumnSum(rows[3..], "d-a1") == 7;
    assert ColumnSum(rows[2..], "d-a1") == 9;
    assert ColumnSum(rows[1..], "d-a1") == 12;
    assert ColumnSum(rows, "d-a1") == 16;
    assert (320.0).Floor == 320;
  }

  /** Scores in range imply the columns are present. */
  lemma DimensionInRangeCovers(rows: seq<Feature>, d: Dimension)
    requires DimensionInRange(rows, d)
    ensures CoversDimension(rows, d)
  {
    forall i: Indicator, c | c in SelectedVariables(i, d)
      ensures HasColumn(rows, c)
    {
      assert InRange(rows, c);
    }
  }

  /** The five means of one indicator type lie in [0, 4] and sum to at most 20. */
  lemma IndicatorMeansBounds(rows: seq<Feature>, i: Indicator, d: Dimension)
    requires rows != [] && DimensionInRange(rows, d)
    ensures HasColumns(rows, SelectedVariables(i, d))
    ensures forall k :: 0 <= k < 5 ==> 0.0 <= IndicatorMeans(rows, i, d)[k] <= 4.0
    ensures 0.0 <= Sum(IndicatorMeans(rows, i, d)) <= 20.0
  {
    DimensionInRangeCovers(rows, d);
    var means := IndicatorMeans(rows, i, d);
    forall k | 0 <= k < 5
      ensures 0.0 <= means[k] <= 4.0
    {
      assert SelectedVariables(i, d)[k] in SelectedVariables(i, d);
      MeanBounds(rows, SelectedVariables(i, d)[k]);
    }
    SumBounds(means, 4.0);
  }

  /** With every score from 0 to 4, each variable cell lies in [0, 4] and each total,
      rounded or not, in [0, 20]: the fixed range of the totals radar. */
  lemma DimensionPreviewBounds(rows: seq<Feature>, d: Dimension)
    requires rows != [] && DimensionInRange(rows, d)
    ensures CoversDimension(rows, d)
    ensures forall j :: 0 <= j < 4 ==> 0.0 <= TabTotals(rows, d)[j] <= 20.0
    ensures var p := DimensionPreview(rows, d);
      (forall k, j :: 0 <= k < 5 && 0 <= j < 4 ==> 0.0 <= p[k].cells[j] <= 4.0)
      && (forall j :: 0 <= j < 4 ==> 0.0 <= p[5].cells[j] <= 20.0)
  {
    DimensionInRangeCovers(rows, d);
    forall j | 0 <= j < 4
      ensures 0.0 <= TabTotals(rows, d)[j] <= 20.0
      ensures forall k :: 0 <= k < 5 ==> 0.0 <= IndicatorMeans(rows, Indicators[j], d)[k] <= 4.0
    {
      IndicatorMeansBounds(rows, Indicators[j], d);
    }
    var p := DimensionPreview(rows, d);
    forall k, j | 0 <= k < 5 && 0 <= j < 4
      ensures 0.0 <= p[k].cells[j] <= 4.0
    {
      Round2Within(IndicatorMeans(rows, Indicators[j], d)[k], 0, 4);
    }
    forall j | 0 <= j < 4
      ensures 0.0 <= p[5].cells[j] <= 20.0
    {
      Round2Within(TabTotals(rows, d)[j], 0, 20);
    }
  }

  // ---------------------------------------------------------------------------
  // The consolidated table (`data_consolidada`, `totales_consolidado`)
  // ---------------------------------------------------------------------------

  /** A row of the consolidated matrix: its `Dimensión` cell and one cell per indicator type. */
  datatype SummaryRow = SummaryRow(dimension: string, cells: seq<real>)

  /** `.mean().mean()`: the mean over the five variables of `d` of their column means
      under indicator type `i`. */
  function DimensionMean(rows: seq<Feature>, i: Indicator, d: Dimension): real
    requires rows != [] && CoversDimension(rows, d)
  {
    Sum(IndicatorMeans(rows, i, d)) / 5.0
  }

  /** The five dimension rows, each cell rounded to two decimals. */
  function SummaryRows(rows: seq<Feature>): seq<SummaryRow>
    requires rows != [] && CoversAll(rows)
  {
    seq(5, m requires 0 <= m < 5 =>
      SummaryRow(DimensionName(Dimensions[m]),
        seq(4, j requires 0 <= j < 4 => Round2(DimensionMean(rows, Indicators[j], Dimensions[m])))))
  }

  /** `totales_consolidado`: per indicator type, the sum of the five ROUNDED cells above. */
  function SummaryTotals(rows: seq<Feature>): seq<real>
    requires rows != [] && CoversAll(rows)
  {
    var summary := SummaryRows(rows);
    seq(4, j requires 0 <= j < 4 => Sum(seq(5, m requires 0 <= m < 5 => summary[m].cells[j])))
  }

  /** The consolidated matrix as displayed: five dimension rows then "SUMA". */
  function ConsolidatedPreview(rows: seq<Feature>): seq<SummaryRow>
    requires rows != [] && CoversAll(rows)
  {
    SummaryRows(rows) + [SummaryRow("SUMA", SummaryTotals(rows))]
  }

  /** With every score from 0 to 4, each consolidated cell lies in [0, 4] and each "SUMA"
      cell in [0, 20]: the fixed range of the consolidated radar. */
  lemma ConsolidatedBounds(rows: seq<Feature>)
    requires rows != [] && AllInRange(rows)
    ensures CoversAll(rows)
    ensures var p := ConsolidatedPreview(rows);
      && |p| == 6
      && (forall m, j :: 0 <= m < 5 && 0 <= j < 4 ==> 0.0 <= p[m].cells[j] <= 4.0)
      && (forall j :: 0 <= j < 4 ==> 0.0 <= p[5].cells[j] <= 20.0)
  {
    forall d: Dimension
      ensures CoversDimension(rows, d)
    {
      DimensionInRangeCovers(rows, d);
    }
    var summary := SummaryRows(rows);
    forall m, j | 0 <= m < 5 && 0 <= j < 4
      ensures 0.0 <= summary[m].cells[j] <= 4.0
    {
      var d := Dimensions[m];
      IndicatorMeansBounds(rows, Indicators[j], d);
      Round2Within(DimensionMean(rows, Indicators[j], d), 0, 4);
    }
    forall j | 0 <= j < 4
      ensures 0.0 <= SummaryTotals(rows)[j] <= 20.0
    {
      SumBounds(seq(5, m requires 0 <= m < 5 => summary[m].cells[j]), 4.0);
    }
  }

  /** The consolidated matrix has the five dimensions in tab order, then "SUMA"; each
      dimension cell is the rounded mean of that dimension's five variable means, and
      each "SUMA" cell is exactly the sum of the five displayed cells above it. */
  lemma ConsolidatedContents(rows: seq<Feature>)
    requires rows != [] && CoversAll(rows)
    ensures var p := ConsolidatedPreview(rows);
      && |p| == 6
      && (forall m :: 0 <= m < 5 ==> p[m].dimension == DimensionName(Dimensions[m]) && |p[m].cells| == 4)
      && p[5].dimension == "SUMA" && |p[5].cells| == 4
      && (forall m, j :: 0 <= m < 5 && 0 <= j < 4 ==>
            p[m].cells[j] == Round2(DimensionMean(rows, Indicators[j], Dimensions[m])))
      && (forall j :: 0 <= j < 4 ==> p[5].cells[j] == Sum(seq(5, m requires 0 <= m < 5 => p[m].cells[j])))
  {
    var p := ConsolidatedPreview(rows);
    forall j | 0 <= j < 4
      ensures p[5].cells[j] == Sum(seq(5, m requires 0 <= m < 5 => p[m].cells[j]))
    {
      assert seq(5, m requires 0 <= m < 5 => p[m].cells[j])
          == seq(5, m requires 0 <= m < 5 => SummaryRows(rows)[m].cells[j]);
    }
  }
}
