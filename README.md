# La Brújula dashboard — a verified model of its table, radar and map logic

The santa-maria dashboard ("Plataforma de La Brújula") is a Streamlit app. It shows a
feature table of the Santa María department: departments, municipalities, localities
and blocks. Each feature has a hierarchical code `COD` and one integer compliance score
from 0 to 4 for each column `{prefix}{variable}`:

- the prefix is one of four indicator types: `d-` Derechos, `op-` Obras públicas,
  `os-` Organización social, `n-` Normas;
- the variable is one of five dimensions × five variables, `a1` to `e5`.

The dashboard has five dimension tabs and one consolidated tab:

- A **dimension tab** selects a scale by `COD` prefix. It shows:
  - the matrix of column means (five variables × four indicator types), with a
    "Totales" row, and the radar of those totals;
  - the compass of one indicator type;
  - a choropleth map of one chosen variable.
- The **consolidated tab** shows:
  - the mean of each dimension under each indicator type, with a "SUMA" row and
    its radar;
  - the compass of one indicator type across the five dimensions.

This project models that computation in Dafny. All of it sits in `app.py`. The modules:

- `Frame`: the table as rows of `(COD, scores)`. It holds:
  - the order-preserving selection behind boolean masks and filtering comprehensions;
  - the scale filter (`str.startswith`);
  - column means and sums;
  - pandas `round(2)`.
- `Catalog`: the indicator prefixes, the dimension variables, the label dictionary and
  the scale prefixes.
- `Colors`: `color_map`.
- `Radar`: `plot_radar_chart`.
- `Display`: `display_data_and_charts`.
- `FoliumMap`: the tooltip and fill-colour logic of `create_folium_map`.
- `Aggregate`: the two matrices, as functions of the selected rows, with their
  properties.
- `DimensionTab`: `create_tab_content`.
- `ConsolidatedTab`: the consolidated tab.

The model follows the source's form:

- Pure code becomes functions and lemmas: `color_map`, the comprehensions, the
  dictionaries and the means.
- Code that builds results step by step becomes methods, each proved against the
  functions above: `plot_radar_chart` (extends its two lists), `create_folium_map`
  (its alias loop), `create_tab_content` (reassigns `df_preview`) and the consolidated
  tab.
- A Streamlit selectbox becomes a parameter of the method that reads it: a `Scale`,
  an `Indicator`, and the position of the chosen variable label. The tab itself is a
  `Dimension` parameter: `create_tab_content` is called once per tab.

An uncaught pandas `KeyError` becomes an outcome. This is the error when a score column
is missing from the frame, and it stops the script. The outcome names the first absent
column, in the order the source reads the columns.

## Model

| member | source | states |
|---|---|---|
| Frame.Filter | app.py:100 | the selection keeps exactly the elements that pass the test, and no more elements than the input |
| Frame.FilterIsSubsequence | app.py:464 | the selection keeps the original order (a subsequence of the input) |
| Frame.FilterCounts | app.py:398 | each element that passes keeps its multiplicity; each element that fails is dropped |
| Frame.FilterIdempotent | app.py:398 | selecting twice with the same test equals selecting once |
| Frame.FilterAppend | app.py:100 | selection distributes over concatenation |
| Frame.FilterAll | app.py:464 | when every element passes, the selection is the whole input |
| Frame.SelectPrefix | app.py:397-398 | the filtered table keeps the columns and keeps exactly the rows whose `COD` starts with the prefix (case-sensitive); well-formedness is preserved |
| Frame.SelectPrefixIdempotent | app.py:577-578 | applying the scale filter twice gives the same rows |
| Frame.SelectPrefixKeepsOrder | app.py:578 | the filtered rows keep file order |
| Frame.ColumnSumBounds | app.py:410-413 | with scores in [0, 4], a column sum lies in [0, 4·n] |
| Frame.MeanBounds | app.py:410-413 | with scores in [0, 4], a column mean lies in [0, 4] |
| Frame.SumBounds | app.py:421 | a sum of n values from [0, b] lies in [0, b·n] |
| Frame.Mean | app.py:410 | the mean of a column is its sum divided by the number of rows; it lies in [0, 4] with scores in [0, 4] (Frame.MeanBounds) |
| Frame.Sum | app.py:421 | the sum of a column of reals, as `DataFrame.sum()`; bounded by Frame.SumBounds and compared with rounding by Frame.RoundedSumDrift |
| Frame.Round2 | app.py:430 | rounding to two decimals gives a whole number of hundredths and moves a value by at most 0.005 |
| Frame.Round2Within | app.py:590 | rounding keeps a value inside any integer interval that contains it |
| Frame.RoundAll | app.py:430 | rounding a column rounds each cell and keeps the length |
| Frame.RoundedSumDrift | app.py:590-593 | the sum of the rounded cells differs from the exact sum by at most 0.005 per cell |
| Catalog.VarShape | app.py:259-265 | variable k of a dimension is its letter followed by the digit k + 1 |
| Catalog.LabelLookup | app.py:202 | the label of a `VARIABLE` value, missing for a string that is not a key; it has a label exactly for the 100 score columns (Catalog.LabelLookupDomain), the label of the variable's own position (Catalog.LabelOfEveryColumn) |
| Catalog.ParseCode | app.py:274-338 | the key structure of the label dictionary: an indicator prefix, a dimension letter and a digit from 1 to 5; characterised by Catalog.ParseCodeRoundTrip and Catalog.ParseCodeSound |
| Catalog.SelectedVariables | app.py:462 | the five score columns of a dimension under one indicator type, in variable order (`f"{prefix}{var}"`) |
| Catalog.ScalePrefix | app.py:351-357 | `escalas_cod`: the `COD` prefix of each scale; characterised by Catalog.ScalePrefixesDisjoint and Catalog.MunicipioPrefixUndelimited |
| Catalog.ParseCodeRoundTrip | app.py:274-338 | every key `{prefix}{v}` parses back to its indicator type, dimension and variable |
| Catalog.ParseCodeSound | app.py:274-338 | only the keys `{prefix}{v}` parse |
| Catalog.LabelOfEveryColumn | app.py:274-338 | the dictionary has a label for every `{prefix}{v}`, and the label depends only on `v` |
| Catalog.LabelLookupDomain | app.py:274-338 | a string has a label if and only if it is one of the 100 score columns |
| Catalog.LabelsDistinct | app.py:274-338 | within one dimension the five labels are pairwise distinct |
| Catalog.DimensionNameUnlabelled | app.py:621 | no tab title is a key of the label dictionary |
| Catalog.ScalePrefixesDisjoint | app.py:351-357 | no `COD` is selected by two different scales |
| Catalog.PrefixesOfOneCode | app.py:398 | two prefixes of one code are prefixes of one another |
| Catalog.MunicipioPrefixUndelimited | app.py:353 | "MUN-1" is a raw prefix: it also selects "MUN-12" and every "MUN-1…" code |
| Catalog.DeptoSpellingUnselected | app.py:352 | a code spelt "DEPTO-…" is selected by no scale |
| Colors.Truncate | app.py:68 | `int()` of a float truncates toward zero: the result is the integer part, below the value for a positive one and above it for a negative one |
| Colors.ToInt | app.py:67-70 | the conversion succeeds exactly for a number, and then moves it by less than 1 |
| Colors.ColorMap | app.py:64-70 | the colour is always one of the five ramp entries; it is entry ⌊x⌋ when 0 ≤ x < 5, and white otherwise or when the conversion fails |
| Colors.ColorIdentifiesScore | app.py:66 | two in-range integer scores with the same colour are equal |
| Radar.Ticks | app.py:52 | the radial ticks: every 4 up to 20 on the totals scale, every unit otherwise |
| Radar.PlotRadarChart | app.py:20-30 | no chart exactly when there is no category; otherwise both lists are the frame's columns plus one element equal to the first, and the ticks are those of the range |
| Radar.PlotTotals | app.py:421-425 | the totals radar has one vertex per indicator type, named as its column and placed at its total, closed, on the 0 to 20 scale |
| Display.DisplayDataAndCharts | app.py:131-219 | an empty frame gives no matrix and no chart; otherwise every row keeps its value and gets the dictionary label of its `VARIABLE` (missing when it is not a key); the radar has those labels and values, closed on the first, on the default range |
| FoliumMap.IndexOf | app.py:105 | `list.index` gives the first position of the element, and fails exactly when the element is absent |
| FoliumMap.ExistingFields | app.py:100 | the tooltip fields that are columns of the frame, in their order; characterised by FoliumMap.ExistingFieldsInOrder |
| FoliumMap.ExistingFieldsInOrder | app.py:100 | the tooltip keeps exactly the given fields that are columns, in order |
| FoliumMap.TooltipColumns | app.py:100-111 | the kept fields are the filtered fields; the aliases have the same length, and each alias is taken from its field's original position (the `ValueError` branch is never taken) |
| FoliumMap.FillColors | app.py:120-121 | one fill colour per feature, always a ramp entry |
| FoliumMap.FillColorsFollowScores | app.py:120-121 | with scores in [0, 4], each feature is filled with the ramp entry of its score |
| Aggregate.DimensionColumns | app.py:410-413 | the 20 columns of a dimension in the order the tab reads them (all "d-", then "op-", "os-", "n-"), which decides the column a `KeyError` names |
| Aggregate.AllColumns | app.py:584-587 | the 100 columns in the order the consolidated tab reads them (each indicator type in turn, each dimension within it) |
| Aggregate.FirstMissing | app.py:410-413 | no column is reported missing exactly when all are present; a reported column is one of them and is absent |
| Aggregate.DimensionColumnsPresent | app.py:408-414 | when none of the 20 columns of a dimension is absent, every selected row has them all |
| Aggregate.AllColumnsPresent | app.py:584-587 | when none of the 100 columns is absent, every selected row has them all |
| Aggregate.IndicatorMeans | app.py:410-413 | the five column means of one indicator type in variable order; bounded by Aggregate.IndicatorMeansBounds |
| Aggregate.TabTotals | app.py:421 | per indicator type, the sum of its five unrounded means; bounded by Aggregate.DimensionPreviewBounds |
| Aggregate.DimensionPreview | app.py:408-430 | the dimension matrix; its labels, cells and bounds are stated by Aggregate.DimensionPreviewLabels, Aggregate.DimensionPreviewCells and Aggregate.DimensionPreviewBounds |
| Aggregate.DimensionPreviewLabels | app.py:408-428 | the matrix has the five variables of the dimension in order, each under its label, then "Totales" |
| Aggregate.DimensionPreviewCells | app.py:408-430 | each variable cell is the rounded mean of its column; each "Totales" cell is the rounded sum of the five unrounded means above it |
| Aggregate.TotalesNearDisplayedSum | app.py:421-430 | because "Totales" is rounded after the sum, it is within 0.03 of the sum of the five rounded cells shown above it |
| Aggregate.ExampleFilter | app.py:353 | beside a "MUN-2" feature, the filter for Municipio de Santa María keeps exactly five "MUN-1" features |
| Aggregate.ExampleMean | app.py:410 | scores 4, 3, 2, 4, 3 have mean 3.2, which rounding keeps |
| Aggregate.IndicatorMeansBounds | app.py:410-413 | with scores in [0, 4], the five means of an indicator type lie in [0, 4] and sum to at most 20 |
| Aggregate.DimensionPreviewBounds | app.py:421-444 | with scores in [0, 4], every variable cell lies in [0, 4] and every total, rounded or not, lies in [0, 20], the fixed radar range |
| Aggregate.DimensionMean | app.py:584 | the mean of the five column means of a dimension under one indicator type (`.mean().mean()`); bounded by Aggregate.ConsolidatedBounds |
| Aggregate.SummaryRows | app.py:582-590 | the five dimension rows with their rounded means; stated by Aggregate.ConsolidatedContents |
| Aggregate.SummaryTotals | app.py:593 | the "SUMA" cells, sums of the rounded cells; stated by Aggregate.ConsolidatedContents and Aggregate.ConsolidatedBounds |
| Aggregate.ConsolidatedPreview | app.py:582-600 | the consolidated matrix; stated by Aggregate.ConsolidatedContents and Aggregate.ConsolidatedBounds |
| Aggregate.ConsolidatedBounds | app.py:584-608 | with scores in [0, 4], every consolidated cell lies in [0, 4] and every "SUMA" cell lies in [0, 20] |
| Aggregate.ConsolidatedContents | app.py:582-600 | the consolidated matrix has the five dimensions in tab order and then "SUMA"; each cell is the rounded mean of the five variable means; each "SUMA" is exactly the sum of the rounded cells above it |
| DimensionTab.ExistingVariables | app.py:464 | the selected columns the frame has, in variable order; characterised by DimensionTab.ExistingVariablesInOrder and DimensionTab.ExistingVariablesComplete |
| DimensionTab.ExistingVariablesInOrder | app.py:463-464 | the existing variables are exactly the selected columns that the frame has, in variable order |
| DimensionTab.ExistingVariablesComplete | app.py:464-468 | once the matrix was built, every selected variable exists, so the "no variables" warning cannot appear |
| DimensionTab.DisplayPairs | app.py:503 | `vars_to_display`: each existing column with its label; characterised by DimensionTab.DisplayPairsOfSelected |
| DimensionTab.Options | app.py:507 | the selectbox offers one label per pair, in order |
| DimensionTab.DisplayPairsOfSelected | app.py:503 | `vars_to_display` pairs each selected column with the label of its own variable |
| DimensionTab.FindValue | app.py:511 | the reverse lookup finds the first pair with the chosen value, and fails exactly when no pair has it |
| DimensionTab.ChosenLabelSelectsColumn | app.py:503-511 | choosing the label of variable k selects column k |
| DimensionTab.BuildPreview | app.py:408-430 | the matrix built step by step (means, labels, unrounded totals, then rounding) is the specified matrix, and its totals are the unrounded sums |
| DimensionTab.ShowIndicator | app.py:462-477 | the compass matrix holds all five variables of the indicator type under their labels with their column means; the radar has six vertices: the five labels at those means in variable order, then the first again, on the 0 to 4 range; the selectbox offers the five labels |
| DimensionTab.TooltipAliases | app.py:528-529 | `tooltip_aliases` for the chosen label, position by position with `tooltip_fields` (the constant `TooltipFields`), the last being the label followed by ":" |
| DimensionTab.TooltipEndsWithValor | app.py:528-529 | whatever the frame's columns, the map tooltip ends with `VALOR`, whose alias is at position 5 |
| DimensionTab.Territorialize | app.py:503-537 | the map shows the chosen label and its column; its tooltip ends with `VALOR` aliased by the label, each alias aligned with its field; each feature is filled by the colour of that column's score |
| DimensionTab.CreateTabContent | app.py:340-537 | no data exactly when the scale selects no feature; `KeyError` at the first absent column of the dimension; otherwise the specified matrix, the radar of its totals, the compass of the chosen indicator type (its matrix and its closed radar of the five labelled means), the five labels as options, and the map of the chosen column with its tooltip (the fields present in the frame, each with its aligned alias) and its fill colours |
| ConsolidatedTab.BuildConsolidated | app.py:582-600 | the consolidated matrix built step by step (means, rounding, then "SUMA") is the specified one, and its radar is drawn from the sums of the rounded cells |
| ConsolidatedTab.ShowConsolidatedCompass | app.py:614-636 | the compass matrix holds the five unrounded dimension means of the chosen indicator type in tab order; the radar has six vertices: those means in order, then the first again, on the 0 to 4 range; every label is missing, because dimension names are not dictionary keys |
| ConsolidatedTab.ConsolidatedContent | app.py:562-638 | no data exactly when the scale selects no feature; `KeyError` at the first absent column in reading order; otherwise the specified matrix, its radar, and the compass matrix of dimension means with its closed radar |

## Left out

- Streamlit presentation is not modelled. This covers titles, images, metrics, captions,
  link buttons, the placeholder conclusions and footers. The selectboxes become
  parameters.
- Plotly figure construction and the Folium map and tile layers are not modelled. They
  are calls into rendering libraries. A chart is modelled by its coordinates, range and
  ticks.
- GeoJSON loading (`load_data`) is not modelled. It is file I/O. The table is a
  parameter.
- The centroid of the map is not modelled. It is geometry on floating-point
  coordinates. The fallback tuple of `create_folium_map` is not modelled as working
  either: the map reads `centro.y` from it, which would raise.
- The `current_tile_selection` session-state write and read are not modelled. They are
  per-session UI state. The tile choice does not affect any modelled value.
- Floating point is not modelled. Means are exact rationals, and `round(2)` is exact
  round-half-to-even on them. NaN in score columns is not modelled: every score is an
  integer.
- generate_keys.py is not part of this model. It hashes passwords with a library and
  writes a file.
- The `KeyError` of a list selection names every absent column of that list.
  ConsolidatedTab.ConsolidatedContent names only the first absent one.
- DimensionTab.CreateTabContent cannot take the `not dimension_variables` warning. A tab
  is a `Dimension`, and every dimension has its five variables.
- DimensionTab.CreateTabContent cannot take the warning for an empty
  `existing_selected_variables`, the `StopIteration` of the reverse lookup, or the
  error for a missing selected column. The model proves each of these unreachable. The
  last is a dead branch of DimensionTab.Territorialize, whose precondition (every
  selected column is in the frame) follows from the columns check before it.
- Frame.Round2: the contract states that the result is a whole number of hundredths
  within 0.005 of the value. The tie rule (halves go to the even hundredth) is in the
  definition, but no lemma states it.
- FoliumMap.TooltipColumns requires that every kept field sits at a position of
  `fields` below the number of aliases. The source raises `IndexError` only when a kept
  field's position is at or past `len(tooltip_aliases)`, and the model does not represent
  that error. The only caller passes six fields and six aliases.
- The map's `VALOR` column is a copy of the chosen score column. FoliumMap.FillColors
  reads the chosen column directly.
- The department prefix is "DPTO-" (app.py:352), so a code spelt "DEPTO-…" is selected
  by no scale (Catalog.DeptoSpellingUnselected).
