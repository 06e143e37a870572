# Market dashboard core in Dafny

A model of the interactive logic of a desktop market dashboard (`Analisis_data.py`). A worker
thread connects to a broker, requests five instrument classes and emits signals. The main window
filters each dataset by activity, stores it, shows it in a table and plots it as a bubble chart.
The chart zooms about the cursor within clamps, pans, follows two scrollbars and highlights one
symbol at a time when a table row is clicked.

Modules, in dependency order:

- `Wrappers`: `Option`.
- `RealArith`: small lemmas about products and quotients of reals.
- `Viewport`: the arithmetic of one chart's limits: zoom to the cursor with the zoom-out and
  zoom-in clamps, pan, the scrollbar state derived from the limits (`int()` truncation and the
  0..1000 bar range written out), and the limits derived back from a scrollbar value.
- `Bubbles`: the bubble encoding. Sizes are normalised turnover in 100..2000. Colours come from
  the sign of the change. Labels go on every point up to 15 rows, otherwise only on points above
  pandas' linear-interpolation upper quartile.
- `Frames`: data frames reduced to index labels, index name and named columns of cells. Numeric
  coercion is given per cell, because text parsing is not modelled.
- `Preparation`: the activity filter (`operations` coerced and at least 1) and `prepare_data`:
  the column mapping, the symbol and numeric fallbacks, and the row cleaning.
- `TableItems`: `NumericTableWidgetItem.__lt__` and the lookup of the symbol column among a
  table's headers.
- `Highlight`: `highlight_symbol` on values: restore the previous highlight, then mark the first
  matching point.
- `Chart`: the chart widget as a class. The current and original limits, the bars, the pan
  state and the plotted rows are fields. Edge colours and widths are arrays that
  `highlight_symbol` updates in place.
- `Acquisition`: `connect_and_fetch_data` as the pure sequence of signals it emits. The
  outcome of connecting and of each request is a parameter.
- `Dashboard`: the main window as a class. It covers the single-worker guard of `fetch_data`,
  the handling of each signal, `update_data`, `update_table` and the table click. The storage
  after a whole run is proved from the signal sequence.

Three behaviours follow the code where its comments and documentation suggest otherwise:

- The zoom-in clamp recentres the axis on the midpoint of the range the zoom computed, not on
  the cursor.
- When all turnovers are equal, every bubble gets size 100.
- `prepare_data` drops only rows whose symbol is missing. It then drops rows whose turnover or
  change does not coerce to a number.

## Model

| member | source | states |
|---|---|---|
| Viewport.Scale | Analisis_data.py:230-238 | the wheel up scales by 1/1.5 (less than 1, the inverse of zooming out), down by 1.5 |
| Viewport.ZoomToCursor | Analisis_data.py:241-249 | the new limits are the old width times the scale; they are not finite (None) exactly when the current width is zero |
| Viewport.ZoomKeepsCursor | Analisis_data.py:241-249 | the cursor keeps its relative position inside the axis after zooming |
| Viewport.ZoomInThenOut | Analisis_data.py:230-249 | zooming in then out at the same cursor gives back the limits exactly |
| Viewport.ZoomOutClamp | Analisis_data.py:252-260 | a zoom-out beyond 110% of the original width snaps exactly to the original limits; otherwise it is the plain zoom, and the result is never wider than 110% |
| Viewport.ZoomInClamp | Analisis_data.py:263-273 | a zoom-in never goes below 1% of the original width; when clamped it is exactly 1% wide and centred on the computed range's midpoint; unclamped it is the plain zoom |
| Viewport.ZoomPreservesLimits | Analisis_data.py:252-273 | a view between 1% and 110% of a positive original width stays there, with finite limits, after any wheel step |
| Viewport.Pan | Analisis_data.py:311-318 | panning keeps the width and moves the midpoint by the drag distance, against the drag |
| Viewport.Trunc | Analisis_data.py:590-591 | Python `int()` on a float: the integer part, rounded toward zero, for both signs |
| Viewport.Bound | Analisis_data.py:589-590 | the scrollbar value is clamped to 0..1000 and unchanged inside it |
| Viewport.BarPage | Analisis_data.py:571-617 | a bar is enabled exactly when its axis's original and current widths are positive and the original is wider; the page is then the on-screen share in thousandths, in 0..999; a disabled bar keeps its value and page |
| Viewport.BarValueInside | Analisis_data.py:580-617 | for limits inside the original extent the untruncated bar values lie in 0..1000 and each bar shows exactly its truncation |
| Viewport.ScrolledX | Analisis_data.py:619-633 | the horizontal limits for a bar value keep the current width |
| Viewport.ScrolledY | Analisis_data.py:635-650 | the vertical limits for a bar value measured from the top keep the current height |
| Viewport.ScrollRoundTrip | Analisis_data.py:580-650 | feeding the untruncated bar value back to the scroll handlers gives back the current limits |
| Viewport.ValueRoundTrip | Analisis_data.py:580-650 | the bar value derived from the limits that a bar value produced is that value |
| Viewport.ScrollEnds | Analisis_data.py:619-650 | value 0 puts the view at the left (top) edge of the original extent, value 1000 at the right (bottom) edge |
| Viewport.ScrollInside | Analisis_data.py:619-650 | every value in 0..1000 keeps a view narrower than the original inside the original extent |
| Bubbles.Sizes | Analisis_data.py:365-375 | one size per row for several rows, and the single size 500 for one row |
| Bubbles.SizesNormalised | Analisis_data.py:365-375 | every size is in 100..2000; the smallest turnover gets 100 and the largest gets 2000 when turnovers differ; sizes grow with turnover |
| Bubbles.SizesFlat | Analisis_data.py:365-375 | equal turnovers give every bubble the minimum size 100 |
| Bubbles.FaceColour | Analisis_data.py:378-385 | green exactly for a gain, red exactly for a loss, white exactly for no change |
| Bubbles.FaceColours | Analisis_data.py:378-385 | one face colour per point, each the colour of its own change |
| Bubbles.Sort | Analisis_data.py:405-407 | the values quantiles are read from are ascending and a permutation of the turnovers |
| Bubbles.QuartileBetween | Analisis_data.py:405-407 | the interpolated 0.75 quantile of an ascending sequence lies between the order statistic at floor(0.75 (n-1)) and the maximum |
| Bubbles.QuantileBounds | Analisis_data.py:405-407 | the upper quartile lies between the smallest and the largest turnover |
| Bubbles.AboveFlags | Analisis_data.py:405-407 | one flag per row, true exactly when the turnover is strictly above the threshold |
| Bubbles.LabelsLimited | Analisis_data.py:405-407 | above 15 rows at most n-1-floor(0.75 (n-1)) points are labelled, and a point with the smallest turnover never is |
| Bubbles.ThreeEqualRows | Analisis_data.py:365-407 | three rows of equal turnover: three minimum sizes, one colour per sign, all labelled |
| Frames.Coerce | Analisis_data.py:560-562 | numeric coercion leaves a number or a missing value with the same numeric reading |
| Frames.FindColumn | Analisis_data.py:533-534 | the first column with a name, or None exactly when no column has it |
| Frames.Frame.Set | Analisis_data.py:533-557 | `data[name] = cells` replaces a present column in place or appends a new last one; every other column and the index stay |
| Frames.Frame.Select | Analisis_data.py:914-916 | mask selection keeps the chosen rows in order with their index labels and every column's cells |
| Frames.NatToString | Analisis_data.py:541 | `str(i)` is a non-empty run of decimal digits |
| Preparation.ActivityFilter | Analisis_data.py:910-916 | the filtered frame is well formed |
| Preparation.ActivityFilterRows | Analisis_data.py:910-916 | without `operations` nothing changes; otherwise a row survives exactly when its count coerces to at least 1, rows keep their order, labels and other cells, and the kept count is the coerced number |
| Preparation.ActivityFilterExample | Analisis_data.py:910-916 | operations 0, 1, "x", 5 keep exactly the second and the fourth row |
| Preparation.MapColumns | Analisis_data.py:521-534 | the mapping keeps the index and every column already present, cells unchanged |
| Preparation.MapColumnsFills | Analisis_data.py:532-534 | an absent canonical column is filled exactly when a source is present, from the first present source in mapping order |
| Preparation.CanonicalAliases | Analisis_data.py:521-530 | the sources of each canonical name in order: ticker, simbolo for symbol; precio for price; none for turnover; variacion, var, cambio, pct_change for change; no pair reads a column another writes |
| Preparation.MappedAlias | Analisis_data.py:521-534 | an absent symbol is filled from ticker, an absent change from variacion |
| Preparation.FirstMentioning | Analisis_data.py:545-553 | the first column whose lower-cased name contains one of the words, or None when none does |
| Preparation.InstNames | Analisis_data.py:541 | one generated symbol per row, row i's being the text INST_ followed by the digits of i, so never missing |
| Preparation.Draws | Analisis_data.py:543-557 | one random fallback number per row, row i's being the i-th draw |
| Preparation.WithSymbol | Analisis_data.py:537-541 | afterwards a symbol column exists, no other column is added and present columns are unchanged; a missing symbol column is the index when the index is named, otherwise the generated INST_i names |
| Preparation.WithNumeric | Analisis_data.py:543-557 | afterwards the named column exists, no other column is added and present columns are unchanged; a missing column is the coercion of the first column whose name mentions one of the words, otherwise the random draws, so every new cell is a number or missing |
| Preparation.NumericKeepsSymbol | Analisis_data.py:543-557 | the turnover and change fallbacks leave the symbol column as it was |
| Preparation.GeneratedSymbols | Analisis_data.py:536-541 | a dataset with no symbol source and an unnamed index gets the symbols INST_0, INST_1, ..., none of them missing, so no row is dropped for its symbol |
| Preparation.Canonical | Analisis_data.py:521-557 | the frame has symbol, turnover and change columns and the original index |
| Preparation.CanonicalColumns | Analisis_data.py:521-557 | canonical columns present in the dataset are used as they are; a missing symbol comes from ticker, a missing change from variacion |
| Preparation.KeptRows | Analisis_data.py:560-565 | the kept rows are ascending and are exactly the rows with a symbol and with turnover and change that coerce |
| Preparation.PrepareDataRows | Analisis_data.py:515-567 | every prepared row is a complete canonical row, in order, with the coerced numbers and a present symbol; every complete row is prepared; never more rows than the dataset |
| TableItems.TextLessIrreflexive | Analisis_data.py:666-672 | the text comparison never ranks a text before itself |
| TableItems.TextLessAsymmetric | Analisis_data.py:666-672 | the text comparison is asymmetric |
| TableItems.TextLessTransitive | Analisis_data.py:666-672 | the text comparison is transitive |
| TableItems.TextLessTotal | Analisis_data.py:666-672 | two different texts are always ordered one way or the other |
| TableItems.NumericCellsCompareAsNumbers | Analisis_data.py:666-672 | two cells that parse compare as numbers, whatever their text |
| TableItems.NumericLessStrictOrder | Analisis_data.py:656-672 | on a column that is all numeric or all text the comparison is a strict order |
| TableItems.NumericLessAsymmetric | Analisis_data.py:666-672 | any two cells compare asymmetrically and irreflexively |
| TableItems.MixedColumnCycle | Analisis_data.py:666-672 | a mixed column has a cycle "9" < "10" < "5x" < "9", so it is not ordered |
| TableItems.IndexOf | Analisis_data.py:1011 | `list.index`: the first position holding the name, or None exactly when it is absent |
| TableItems.FirstPresent | Analisis_data.py:1008-1012 | -1 exactly when no preferred name is present; otherwise the first position of the first preferred name that is present |
| TableItems.SymbolColumnIndex | Analisis_data.py:1006-1014 | -1 exactly when no lower-cased header is symbol, ticker or simbolo |
| TableItems.SymbolColumnPreference | Analisis_data.py:1006-1014 | symbol beats ticker beats simbolo wherever they stand, and the first equal header is taken |
| TableItems.SymbolColumnExample | Analisis_data.py:1006-1014 | headers Ticker, Price, SYMBOL give the third column |
| Highlight.HighlightEdge | Analisis_data.py:496-505 | dark green exactly on green, dark red exactly on red, yellow otherwise |
| Highlight.Rgb | Analisis_data.py:496-505 | the colours as `getRgbF` gives them are opaque |
| Highlight.AsWrittenAlwaysYellow | Analisis_data.py:496-505 | comparing the face colour drawn with alpha 0.7 against opaque green and red with tolerance 0.1 never matches, so every highlight edge is yellow, a green bubble's included |
| Highlight.RgbComparisonIntended | Analisis_data.py:496-505 | the same comparison on red, green and blue alone picks exactly the edge colour that `HighlightEdge` gives, for every colour |
| Highlight.FirstMatch | Analisis_data.py:476-482 | the first point with the symbol, or None exactly when no point has it |
| Highlight.RestoreExact | Analisis_data.py:462-473 | undoing the recorded highlight gives back the plain styling exactly |
| Highlight.StepConsistent | Analisis_data.py:456-512 | every call keeps the styling different from the plain one in at most the recorded point |
| Highlight.AtMostOneHighlighted | Analisis_data.py:456-512 | at most one point, the recorded one, differs from its plain style |
| Highlight.ClearUndoesHighlight | Analisis_data.py:459-473 | highlighting and then clearing gives the styling with the earlier highlight undone, and from plain styling gives it back |
| Highlight.HighlightTarget | Analisis_data.py:476-507 | the first point with the symbol gets the edge for its face colour and width 3, its previous style is recorded, and every other point keeps its style |
| Highlight.StepIdempotent | Analisis_data.py:456-512 | a second call with the same argument changes nothing |
| Highlight.AbsentOnlyRestores | Analisis_data.py:459-482 | no symbol, the empty text or a symbol not on the chart only undoes the previous highlight |
| Highlight.StepIsolated | Analisis_data.py:456-512 | a call changes no point other than the recorded one and the new target |
| Chart.Zoom | Analisis_data.py:215-283 | only x changes only when the view has zero height; from a view within the limits on both axes the result is within them |
| Chart.ZoomOutcomes | Analisis_data.py:215-283 | read forward, with a cursor and the up or down button: both axes zoom when both have a width; a zero-height view changes only x and a zero-width one changes nothing, unless a zoom-out snaps that axis to an inverted original |
| Chart.ZoomNaN | Analisis_data.py:241-273 | a zero-width axis comes out NaN unless a zoom-out snaps it to an original of negative width |
| Chart.ZoomNotNaN | Analisis_data.py:241-249 | an axis only comes out not finite when its width is zero |
| Chart.FaceColourList | Analisis_data.py:378-385 | the loop builds exactly the face colour list |
| Chart.LabelFlags | Analisis_data.py:405-407 | the loop builds exactly the label flags |
| Chart.Encoding | Analisis_data.py:365-407 | sizes, face colours and label flags of the prepared rows |
| Chart.PlotWidget.constructor | Analisis_data.py:134-143 | axes 0..1, bars at 500 with page 100, no original limits, no scatter, no highlight, no pan |
| Chart.PlotWidget.UpdateScrollbars | Analisis_data.py:571-617 | without original limits the bars stay; otherwise each bar is derived from its axis |
| Chart.PlotWidget.OnScroll | Analisis_data.py:215-283 | ignored events change nothing; a NaN y axis updates only x and leaves the bars; otherwise both axes zoom and the bars follow |
| Chart.PlotWidget.ResetZoom | Analisis_data.py:325-335 | the original limits come back and the bars follow; with none nothing changes |
| Chart.PlotWidget.OnMotion | Analisis_data.py:304-323 | while panning from a press with both coordinates, both axes shift by the move and the bars follow; otherwise nothing changes |
| Chart.PlotWidget.HScrollPlot | Analisis_data.py:619-633 | when the original is wider than the view the x window goes to the bar's position; the width and y stay |
| Chart.PlotWidget.VScrollPlot | Analisis_data.py:635-650 | the same for y, measured from the top; the height and x stay |
| Chart.PlotWidget.HighlightSymbol | Analisis_data.py:456-512 | with a scatter, the arrays change in place to the styling of one highlight step; otherwise nothing changes |
| Chart.PlotWidget.OnClick | Analisis_data.py:285-296 | left press starts a pan at its point and clears the highlight when off every bubble on the axes; with no scatter on the axes nothing happens; a middle press brings back the original limits with the bars following them, and with none leaves the view and bars |
| Chart.PlotWidget.OnRelease | Analisis_data.py:298-302 | releasing the left button ends the pan; other buttons leave it |
| Chart.PlotWidget.PlotBubbleChart | Analisis_data.py:337-451 | the old scatter and highlight are gone; no usable rows leave fresh axes and the original limits; otherwise the prepared rows show with their encoding, white edges of width 1.5 and the fitted limits as original |
| Chart.PlotWidget.ShowRows | Analisis_data.py:362-443 | the chart shows the rows with their encoding and fitted limits |
| Chart.PlotWidget.Fit | Analisis_data.py:437-443 | the fitted limits become current and original and the bars follow |
| Chart.PlotWidget.NewScatter | Analisis_data.py:388-392 | a new scatter with white edges of width 1.5 on every point and nothing highlighted |
| Acquisition.ClassEventsFacts | Analisis_data.py:65-73 | a class's block reports its progress unless its request raised, its dataset exactly when it returned a non-empty frame, and no error |
| Acquisition.ClassProgress | Analisis_data.py:64-113 | the class blocks report strictly increasing progress between 20 and 100 and no error |
| Acquisition.RunConnected | Analisis_data.py:52-120 | a connected run reports 10, then 20, then increasing values below 100, ends with 100 once and the final status, and signals no error |
| Acquisition.RunFailed | Analisis_data.py:52-124 | a failed connection reports 10 only, no dataset, and the one error naming the failure |
| Acquisition.RunDatasets | Analisis_data.py:64-113 | a connected run delivers exactly the non-empty frames the requests returned, once each, in request order |
| Acquisition.ClassDatasets | Analisis_data.py:64-113 | the datasets of the class blocks are exactly the delivered frames of those classes |
| Acquisition.ClassDatasetsOrdered | Analisis_data.py:64-113 | classes in request order deliver in that order |
| Dashboard.Shown | Analisis_data.py:941 | dropping settlement and group keeps exactly the other columns |
| Dashboard.TableContents | Analisis_data.py:941-961 | a table has one row per frame row, headers exactly the columns but settlement and group, and cell (i, h) shows `data[h][i]` |
| Dashboard.StoreList | Analisis_data.py:690-696 | storing keeps an entry for every class |
| Dashboard.StoreAllDatasets | Analisis_data.py:906-916 | handling a run's signals stores exactly its datasets, in order |
| Dashboard.RunStorage | Analisis_data.py:52-124 | after a connected run, each class that delivered a frame holds it filtered by activity and the rest keep their entry; a failed connection changes nothing |
| Dashboard.Window.constructor | Analisis_data.py:690-792 | nothing stored, tables empty, one fresh empty chart per class with no two classes sharing one, and the first fetch started |
| Dashboard.Window.NewCharts | Analisis_data.py:789-792 | one fresh, empty chart per class, no two classes sharing one |
| Dashboard.Window.FetchData | Analisis_data.py:880-904 | while a worker runs nothing changes; otherwise the bar shows 0, the button is disabled and one more worker starts |
| Dashboard.Window.OnWorkerFinished | Analisis_data.py:1048-1051 | the bar is hidden and the button enabled once the worker has ended |
| Dashboard.Window.UpdateTable | Analisis_data.py:929-967 | only the class's table changes, to the table of the frame (cleared for none or empty) |
| Dashboard.Window.UpdateData | Analisis_data.py:906-927 | the class stores the filtered frame, its table shows it, and the window's chart of that class plots it; no other chart changes |
| Dashboard.Window.Replot | Analisis_data.py:969-985 | the chart plots the frame's prepared rows, or keeps its original limits when there are none |
| Dashboard.Window.Deliver | Analisis_data.py:898-902 | each signal changes only its own part: status text, progress value, error shown with the status "Error: ...", or, for a dataset, storage, the class's table and the class's own chart, which ends valid with no highlight and shows the prepared rows or keeps its limits when there are none; other signals leave every chart unchanged |
| Dashboard.Window.OnTableCellClicked | Analisis_data.py:1004-1023 | with a symbol column and a row in the table, the class's chart takes one highlight step for that row's symbol; otherwise the styling is unchanged |
| Dashboard.BuildTable | Analisis_data.py:943-961 | the nested loops build exactly the table of the frame |

## Left out

- Drawing, titles, axis labels, grid, colour bar, tab switching and widget layout: rendering only. The chart keeps the state that the handlers read and write.
- The hit test of `on_click` (`scatter.contains`): a parameter `hit`. The axes test is a parameter `inAxes`.
- The data limits matplotlib fits after plotting: a parameter `fit` of `PlotBubbleChart`, `ShowRows`, `UpdateData` and `Window.Deliver`.
- `Preparation.PrepareData`: the random fallback for turnover and change is a parameter `draw: nat -> real` per column. The ranges of the draws (integers 1000..99999, uniform -5..5) are not stated.
- Frames.Coerce: text parsing (`pd.to_numeric`, `float`) is given per cell. `str` and `float` in the tables are the parameters `render` and `parse`.
- Bubbles.Sizes: turnovers are exact reals. No `NaN`, overflow or rounding is modelled.
- Highlight.HighlightEdge: follows the evidently intended comparison on colour alone (see Findings); matplotlib's colour conversion is given as the fixed values of `Highlight.Rgb`.
- The text of the labels, and the font and position of annotations: appearance only.
- The table background tint for positive and negative change columns: appearance only.
- Qt's sorting of the table by `__lt__`: only `__lt__` is modelled, with its order properties. Sorting itself is not part of this model, so a clicked row is a row in frame order.
- Exception paths of `prepare_data`, `update_data`, `update_table` and `update_plot` for unexpected frames: the model takes well-formed frames.
- Chart.PlotWidget.HScrollPlot, Chart.PlotWidget.VScrollPlot: the bar widgets are not updated by these two handlers, as in the code.
- The timer and auto-update toggle, the credentials, threading and Qt signals: the worker's run is a sequence of events handed to `Window.Deliver` one at a time.
- The `sender()` lookup of `on_table_cell_clicked`: the clicked table's class is a parameter; its chart is the window's chart of that class.
- Frames.Lower: ASCII case only; non-ASCII case mapping (Python's full Unicode `str.lower`) is not modelled, so a header spelled with, say, the Kelvin sign is not found.
- The message timeouts of the status bar and the error dialog: the status text and the list of errors shown stand for them.
- The outer handler of the worker's `run`: the inner handler catches everything inside the connect block, so the outer one is unreachable for the modelled outcomes.
- `closeEvent` and `stop`: shutdown only.

## Findings

| source | as written | input that shows it | evidently intended | confidence | as-written member | corrected member |
|---|---|---|---|---|---|---|
| Analisis_data.py:496-505 | the face colour of the highlighted bubble, which the scatter draws with `alpha=0.7` (line 400), is compared by `np.allclose(..., atol=0.1)` with the opaque `getRgbF` green and red, alpha 1.0 | a click on the row of a bubble with a gain: face (68/255, 1, 68/255, 0.7) against (68/255, 1, 68/255, 1.0) differs by 0.3 in alpha, so the edge is yellow instead of dark green | compare red, green and blue only, so a green bubble gets the dark green edge and a red one the dark red edge | not executed | Highlight.AsWrittenAlwaysYellow | Highlight.RgbComparisonIntended |
