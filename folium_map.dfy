/** The choropleth map (`create_folium_map`) reduced to what it computes: the fill colour
    of each feature and the tooltip fields with their aligned aliases. */
module FoliumMap {
  import opened Wrappers
  import opened Frame
  import opened Colors

  /** Python `list.index`: the first position of `x` in `s`, `None` where it raises
      `ValueError`. */
  function IndexOf(s: seq<string>, x: string): (r: Option<nat>)
    ensures r.Some? <==> x in s
    ensures r.Some? ==> r.value < |s| && s[r.value] == x
    ensures r.Some? ==> forall j :: 0 <= j < r.value ==> s[j] != x
  {
    if s == [] then None
    else if s[0] == x then Some(0)
    else match IndexOf(s[1..], x)
      case None => None
      case Some(j) => Some(j + 1)
  }

  /** The tooltip fields kept by the comprehension: those present among `columns`, in
      the order given. */
  function ExistingFields(fields: seq<string>, columns: set<string>): seq<string> {
    Filter(fields, (f: string) => f in columns)
  }

  /** The kept fields are exactly the given ones present among `columns`, in order. */
  lemma ExistingFieldsInOrder(fields: seq<string>, columns: set<string>)
    ensures forall f :: f in ExistingFields(fields, columns) <==> f in fields && f in columns
    ensures IsSubsequence(ExistingFields(fields, columns), fields)
  {
    FilterIsSubsequence(fields, (f: string) => f in columns);
  }

  /** The tooltip of the map: the fields present among `columns`, in the order given, and
      for each the alias at the field's position in `fields`. The `except ValueError`
      branch of the source cannot be taken: every kept field is in `fields`. Only the
      positions of kept fields are read from `aliases`. */
  method TooltipColumns(fields: seq<string>, aliases: seq<string>, columns: set<string>)
    returns (existingFields: seq<string>, existingAliases: seq<string>)
    requires forall f :: f in fields && f in columns ==> IndexOf(fields, f).value < |aliases|
    ensures existingFields == ExistingFields(fields, columns)
    ensures |existingAliases| == |existingFields|
    ensures forall j :: 0 <= j < |existingFields| ==>
      IndexOf(fields, existingFields[j]).Some? &&
      existingAliases[j] == aliases[IndexOf(fields, existingFields[j]).value]
  {
    existingFields := ExistingFields(fields, columns);

    existingAliases := [];
    for j := 0 to |existingFields|
      invariant |existingAliases| == j
      invariant forall m :: 0 <= m < j ==>
        IndexOf(fields, existingFields[m]).Some? &&
        existingAliases[m] == aliases[IndexOf(fields, existingFields[m]).value]
    {
      var field := existingFields[j];
      match IndexOf(fields, field)
      case Some(index) =>
        existingAliases := existingAliases + [aliases[index]];
      case None =>
        assert false;
    }
  }

  /** The fill colour of each feature: `color_map` of its `VALOR`, which is a copy of the
      selected score column. */
  function FillColors(rows: seq<Feature>, valueColumn: string): (colors: seq<string>)
    requires HasColumn(rows, valueColumn)
    ensures |colors| == |rows|
    ensures forall j :: 0 <= j < |rows| ==> colors[j] in Palette
  {
    seq(|rows|, j requires 0 <= j < |rows| => ColorMap(Number(rows[j].scores[valueColumn] as real)))
  }

  /** With every score from 0 to 4, each feature is painted with the ramp entry of its
      score. */
  lemma FillColorsFollowScores(rows: seq<Feature>, valueColumn: string, j: nat)
    requires InRange(rows, valueColumn) && j < |rows|
    ensures FillColors(rows, valueColumn)[j] == Palette[rows[j].scores[valueColumn]]
  {
    assert rows[j] in rows;
    var s := rows[j].scores[valueColumn];
    assert (s as real).Floor == s;
  }
}
