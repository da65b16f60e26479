# nuplot series building, in Dafny

nu_plugin_nuplot is a nushell plugin: `nuplot bar`, `boxplot`, `pie`,
`kline` and `line` take a table or list from the pipeline and hand it to a
chart library. This project models the part of each command that builds the
chart data. It makes one pass over the buffered input and sorts every element
into a map from series name to a growing list of data points. While an x-axis
column (`--xaxis`) is active, it captures that column's value from each record
through the date/number cascade `matchXValue`. The first record that lacks the
column makes the pass fall back, once and for all, to an integer index axis.
At the end it picks which series the chart receives and which x axis it gets.

Modules, one per source file, plus three shared ones:

- `Wrappers`: the `Option` and `Result` types.
- `Nu`: the value kinds a command receives (int, float, string, record, list, other).
- `Common` (commands/common.go):
  - the flag getters, the theme fallback, `ValueToFloat64` and `matchXValue`;
  - `autoSetXaxis`, which no command calls;
  - input dispatch;
  - `SeriesTable`, a class holding the series map that `getSeries` and the append loops update in place.
- `Table`: the element loop that `plotBar`, `plotBoxPlot` and the list branch of `plotPie` each contain, identical up to the data struct they build and the text of the error message. It holds:
  - the specification function `Build`, a left fold of one row step over the input;
  - the imperative `BuildSeries`, proved equal to `Build`;
  - the final assembly of the chart.
  The fold lemmas are stated for any row step, so `Kline` reuses them.
- `Bar`, `BoxPlot`, `Pie`, `Kline`: the plot functions of those files.
- `Line` (commands/line.go): the line command. It has its own copies of the constants, the theme choice and `matchXValue`. Its axis handling also differs: captured values go to a reserved slot, and a boolean `xAxisOk` records the downgrade.

Modelling conventions:

- Go map iteration is a nondeterministic choice (`:|`) in the loops. The specification functions are order-independent, so nothing depends on key order.
- The date parsers and `strconv.ParseFloat` are parameters (`Common.Parsers`). Only the order in which they are tried is modelled.
- A Go type assertion that would panic on a flag of the wrong kind becomes a precondition.
- Errors are a `Common.Error` value, one per kind of error; the message text is not modelled (see "## Left out" for the messages that share a value).
- `itemCount`, the length of the last series added, depends on map order. It is specified as the length of some added series, or 0 when none is added.

What the code does not do:

- The box plot passes raw numbers to the chart. `createBoxPlotDataValue` (commands/boxplot.go:63-75) is never called, so no quartiles are computed.
- Kline takes the First/Last/Min/Max values as given and computes none of them.
- No command drops empty series or compares the lengths of series.

## Model

| member | source | states |
|---|---|---|
| Common.GetStringFlag | commands/common.go:87-95 | the default when the flag is absent, else the flag's text |
| Common.GetCellPathFlag | commands/common.go:104-113 | the default when the flag is absent, else the cell path's text |
| Common.StringFlagAsWritten | commands/common.go:87-95 | getStringFlag on a flag of any kind: it panics (None) exactly when the flag is present and not text, else it returns the text or the default |
| Common.XAxisCellPathReadAsText | commands/boxplot.go:80 | a column given through the declared cell-path --xaxis flag makes the text read panic, while the cell-path read returns the column |
| Common.GetIntFlag | commands/common.go:117-125 | the default when the flag is absent, else the flag's integer |
| Common.GetBoolFlag | commands/common.go:128-136 | true exactly when the flag is present and true; false when absent |
| Common.ChooseTheme | commands/common.go:262-265 | the result is always one of the twelve themes: the requested name if it is one of them, else westeros |
| Common.GlobalTheme | commands/common.go:249-265 | the color-theme flag if it names a known theme; westeros if the flag is absent or unknown |
| Common.ValueToFloat64 | commands/common.go:139-148 | succeeds exactly on ints (converted) and floats (unchanged); every other kind gives the incompatible-type error |
| Common.FirstDate | commands/common.go:160-179 | fails exactly when every format fails; otherwise returns the result of the first format that succeeds, all earlier ones having failed |
| Common.FirstDateCascade | commands/common.go:160-179 | over the five formats, the first success is ISO 8601, else RFC 3339, else the offset layout, else the local layout, else the date-only layout |
| Common.MatchXValue | commands/common.go:153-190 | non-strings come back unchanged; for a string, the first date format that matches wins, then a float; the value comes back unchanged exactly when it is not a string or nothing matches |
| Common.AutoSetXaxis | commands/common.go:63-83 | a user-given name is kept; otherwise the result is a key of the record whose lower-cased form is a candidate, and it stays XAxisSeries exactly when no key qualifies |
| Common.HandleCommandInput | commands/common.go:203-242 | no input finishes without plotting; a single value is plotted once; a stream is plotted once as one list in arrival order; a reader or any other input fails with the unsupported-input error |
| Common.AddFields | commands/bar.go:85-96 | one record adds exactly its numeric fields other than the axis column, each as one more point at the end of the series of its key; every other series is unchanged |
| Common.SeriesTable.constructor | commands/bar.go:69 | the series map starts empty |
| Common.SeriesTable.GetSeries | commands/common.go:51-60 | afterwards the name is a key; a present series is returned with the map unchanged; a missing one is created empty and nothing else changes |
| Common.SeriesTable.AppendTo | commands/bar.go:79-80 | the named series (created empty if missing) gets the point at its end; no other series changes |
| Common.SeriesTable.AppendFields | commands/bar.go:85-96 | the field loop, in any key order, leaves the table equal to AddFields of the old table |
| Table.CaptureAxis | commands/bar.go:99-108 | the axis part of a record: the axis name changes only by the downgrade on a record without the active column; the column's series gains exactly the matched value; no other series changes |
| Table.Row | commands/bar.go:77-112 | one element: it fails, with the unsupported-value error, exactly when it is neither a number nor a record; the axis name changes only by the downgrade on a record without the active column; no series is removed |
| Table.RowSeries | commands/bar.go:78-108 | what one element adds: a number one point to "Items"; a record its numeric field k to series k for every k other than the active column and "Items", and its matched column value to the column's series |
| Table.ApplyRow | commands/bar.go:77-112 | the loop body, in place on the series table: it has exactly Row's effect and returns the new axis name, or Row's error |
| Table.Build | commands/bar.go:74-116 | the whole pass: it fails, with the unsupported-value error, exactly when some element is neither a number nor a record; the downgrade is one-way, so the final axis name is XAxisSeries exactly when some record lacks the given column |
| Table.BuildSeries | commands/bar.go:74-116 | the imperative element loop returns exactly Build: the error of the first unsupported element, or the final series map and axis name |
| Table.FoldPrefixOk | commands/bar.go:110-111 | a successful pass was successful on every prefix of the input |
| Table.FoldErrPersists | commands/bar.go:110-111 | once a prefix of the input has failed, the whole pass returns that same error |
| Table.FoldErrorIff | commands/bar.go:110-116 | for any row step that fails exactly on unsupported elements, the pass fails exactly when some element is unsupported, and with that step's error |
| Table.FoldAxisName | commands/bar.go:99-108 | for any row step that only downgrades, the final axis name is XAxisSeries exactly when a column was given and some record lacks it, else the name given at the start |
| Table.FoldAxisColumn | commands/bar.go:99-102 | for any row step that only appends captured values, the column's series grows by the matched column value of each record, in input order, when no record lacks the column |
| Table.RowIsAxisRow | commands/bar.go:99-108 | the bar/boxplot/pie row step changes the axis name only by the downgrade on a record without the column |
| Table.RowCapturesAxis | commands/bar.go:99-102 | the bar/boxplot/pie row step adds to the active column's series exactly the captured value |
| Table.BuildAxisColumn | commands/bar.go:99-102 | without a downgrade, the column's series is exactly the matched column values, one per record, in input order |
| Table.BuildColumn | commands/bar.go:85-96 | after a successful pass, the series of every key other than the axis column, XAxisSeries and "Items" holds exactly that column's numeric values over the records, in input order, before and after a downgrade |
| Table.BuildNumbers | commands/bar.go:78-83 | a list of bare numbers yields the single series "Items" holding them in input order (no series for an empty list), and the axis name is unchanged |
| Table.FoldKeysGrow | commands/bar.go:76-113 | for any row step that never removes a series, every prefix succeeds and its series names are all still present at the end |
| Table.BuildKeysGrow | commands/bar.go:76-113 | every series created by a prefix of the input is still present after the whole pass |
| Table.DowngradeKeepsColumn | commands/bar.go:99-108 | a record that has the column before the first record that lacks it leaves the column's series in the final map |
| Table.AddSeries | commands/bar.go:129-138 | every series except the excluded one is added, and itemCount is the length of one added series (0 if none) |
| Table.MakeRange | commands/bar.go:143-146 | the range has itemCount elements and element i is i |
| Table.AssembleWithAxis | commands/bar.go:128-149 | the chart has every series except the one named xAxisName; its x axis is that series while a column is active, else 0..n-1 where n is the length of an added series |
| Table.IndexAxisOfUniformSeries | commands/bar.go:140-149 | when all added series have the same length, the index axis is 0..length-1, whatever the map order |
| Bar.PlotBar | commands/bar.go:68-149 | input other than a list fails; otherwise the result is the pass's error, or the chart assembled from its final state |
| Bar.BarOfNumbers | commands/bar.go:76-149 | a non-empty list of numbers without --xaxis charts the one series "Items" of those numbers over the axis 0..n-1 |
| Bar.BarDowngradeShowsColumn | commands/bar.go:130-138 | after a downgrade, the column's series, filled with axis values by earlier records, is charted as data, over an index axis |
| BoxPlot.PlotBoxPlot | commands/boxplot.go:77-156 | as PlotBar (raw points, no aggregation): input other than a list fails; otherwise the pass's error or the assembled chart, with --xaxis read as the cell path it is declared as |
| Pie.RecordSlices | commands/pie.go:107-119 | a top-level record gives no series when it has no numeric non-axis field; otherwise the one series "Items" with exactly one named slice per such field, each carrying that field's value |
| Pie.PlotPie | commands/pie.go:61-139 | a list gives the pass's error, or every series but the one named xAxisName with no x axis; a record gives its slices (none when the axis key is "Items"); anything else fails |
| Kline.ConvertAll | commands/kline.go:90-103 | succeeds exactly when every element is a number; the output then has the input's length and element i is ValueToFloat64 of element i; otherwise the invalid-array error |
| Kline.ConvertValueArray | commands/kline.go:90-103 | the conversion loop returns ConvertAll's list, or an empty list and its error |
| Kline.CandleOf | commands/kline.go:116-152 | four values in First, Last, Min, Max order; a missing column or the axis column gives 0; a present one gives its float; fails with the invalid-column error exactly when a present non-axis column is not a number |
| Kline.Slot | commands/kline.go:126-142 | one slot of the tuple: 0 for the axis column or a missing column; the column's number as a float; an error exactly when a present non-axis column is not a number |
| Kline.RecordCandle | commands/kline.go:115-153 | the field loop with the four locals and four error flags, in any key order, returns CandleOf |
| Kline.KlineRow | commands/kline.go:114-183 | one element: it fails exactly when it is a record with a present non-number First/Last/Min/Max outside the active column, a sub-list whose length is not 4 or that holds a non-number, or any other kind, with the error of that kind; otherwise the axis name changes only by the downgrade |
| Kline.KlineRowCandle | commands/kline.go:145-172 | after a successful element "Items" gains exactly one four-value candle, the record's tuple under the active column or the sub-list converted; the column's series gains only the captured value; no other series changes |
| Kline.ApplyKlineRow | commands/kline.go:114-183 | the loop body, in place on the series table: it has exactly KlineRow's effect and returns the new axis name, or KlineRow's error |
| Kline.KlineBuild | commands/kline.go:112-187 | the whole pass: after a successful one, the axis name is XAxisSeries exactly when a column was given and some record lacks it |
| Kline.KlineSeries | commands/kline.go:112-184 | the imperative element loop returns exactly the pass KlineBuild |
| Kline.PlotKline | commands/kline.go:105-218 | input other than a list fails; otherwise the pass's error, or the chart assembled as in plotBar, with --xaxis read as the cell path it is declared as |
| Kline.KlineRowIsAxisRow | commands/kline.go:156-166 | the kline row step changes the axis name only by the downgrade |
| Kline.KlineRowCapturesAxis | commands/kline.go:156-160 | the kline row step adds to the active column's series exactly the captured value |
| Kline.KlineAxisColumn | commands/kline.go:156-160 | without a downgrade, the column's series is the matched column values, one per record, in order |
| Kline.KlineOneCandlePerRow | commands/kline.go:145-172 | a successful pass puts exactly one candle in "Items" per element, in input order: the i-th is the [First, Last, Min, Max] tuple of record i, read with the axis column in use when it is reached, or sub-list i converted in its own order |
| Kline.KlineErrorIff | commands/kline.go:114-186 | the pass fails exactly when some element fails (a record with a present non-number First/Last/Min/Max outside the axis column then in use, a sub-list whose length is not 4 or that holds a non-number, any other kind), and the error is the one of the first such element |
| Line.ChooseTheme | commands/line.go:238-243 | this file's theme choice: a known theme name, else westeros |
| Line.CopiesAgree | commands/line.go:28-34 | this file's constants and theme choice equal the shared ones |
| Line.MatchXValue | commands/line.go:47-70 | non-strings unchanged; strings try RFC 3339, then the offset layout, then a float; unchanged exactly when none matches |
| Line.MatchXValueAgrees | commands/line.go:47-70 | on strings that no ISO 8601, local or date-only parse accepts, this version and the shared one agree |
| Line.DateOnlyDiffers | commands/line.go:47-70 | a date-only string is a date for the shared version but stays text here |
| Line.LineRow | commands/line.go:187-222 | one element: it fails, with the unsupported-value error, exactly when it is neither a number nor a record; xAxisOk stays on exactly when it was on and the element is not a record without the column |
| Line.LineRowSeries | commands/line.go:188-218 | what one element adds: a number one point to "Items"; a record its numeric field k to series k for every k other than the axis column, the reserved slot and "Items", nothing to the axis column's own series, and while xAxisOk holds its matched column value to the reserved slot |
| Line.ApplyLineRow | commands/line.go:187-222 | the loop body, in place on the series table: it has exactly LineRow's effect and returns the new xAxisOk, or LineRow's error |
| Line.LineBuild | commands/line.go:179-226 | the whole pass: it fails, with the unsupported-value error, exactly when some element is neither a number nor a record; xAxisOk survives exactly when every record has the column |
| Line.LinePrefixOk | commands/line.go:220-221 | a successful pass was successful on every prefix of the input |
| Line.LineErrPersists | commands/line.go:220-221 | once a prefix has failed, the whole pass returns that error |
| Line.PlotLine | commands/line.go:177-301 | input other than a list fails; else the pass's error, or a chart with every series but the reserved slot, whose x axis is the slot while xAxisOk holds, else 0..n-1 |
| Line.NuplotLineHandler | commands/line.go:136-175 | the same dispatch as handleCommandInput, with plotLine as the plot function |
| Line.LineFoldErrorIff | commands/line.go:186-225 | from any start, the loop fails exactly when some element is neither a number nor a record, with the unsupported-value error |
| Line.LineFoldAxisOk | commands/line.go:209-218 | from any start, xAxisOk holds at the end exactly when it held at the start and no record lacks the column |
| Line.LineAxisValues | commands/line.go:209-212 | while every record has the column, the reserved slot holds this file's matched column values in input order |
| Line.AxisColumnNeverSeries | commands/line.go:195-206 | the axis column never becomes a data series, downgrade or not |
| Line.LineColumn | commands/line.go:195-206 | after a successful pass, the series of every key other than the axis column, the reserved slot and "Items" holds exactly that column's numeric values over the records, in input order |
| Line.AppendAgree | commands/line.go:189-193 | appending a bare number keeps the line and bar tables equal outside their axis slots |
| Line.AddFieldsAgree | commands/line.go:195-206 | a record's numeric fields keep the line and bar tables equal outside their axis slots |
| Line.SameSeriesStep | commands/line.go:186-219 | one element keeps the line and bar tables equal outside their axis slots |
| Line.SameSeriesAsBar | commands/line.go:186-219 | without a downgrade, line and bar chart the same data series |

## Findings

| source | as written | input that shows it | evidently intended | confidence | as-written member | corrected member |
|---|---|---|---|---|---|---|
| commands/boxplot.go:80 | reads --xaxis with getStringFlag, whose `.(string)` assertion panics on the cell path that the declared flag (commands/flags/flags.go:70-78) delivers | `nuplot boxplot --xaxis Date` on any table | read it with getCellPathFlag, as commands/bar.go:71 does | medium, not executed; depends on the plugin runtime passing the declared cell path | Common.StringFlagAsWritten, Common.XAxisCellPathReadAsText | BoxPlot.PlotBoxPlot |
| commands/kline.go:108 | reads --xaxis with getStringFlag, whose `.(string)` assertion panics on the cell path that the declared flag delivers | the command's own example `nuplot kline --xaxis Date` (commands/kline.go:63) | read it with getCellPathFlag, as commands/bar.go:71 does | medium, not executed; depends on the plugin runtime passing the declared cell path | Common.StringFlagAsWritten, Common.XAxisCellPathReadAsText | Kline.PlotKline |

## Left out

- Chart construction and rendering in the chart library, the temporary HTML file and opening the browser (commands/common.go:312-335, commands/line.go:229-319): foreign code and I/O. Each plot method ends with the data it would hand over.
- The render error that `plotBar` returns (commands/bar.go:159): it comes from the library. `plotBoxPlot`, `plotPie` and `plotKline` ignore it and return success, which the model matches by returning the chart.
- `buildGlobalChartOptions` beyond the theme, and `setPageTitle`: they only fill library option structs.
- The date and number parsers (ISO 8601, `time.Parse`, `time.ParseInLocation`, `strconv.ParseFloat`): they are parameters; time zones and locale are not modelled.
- Common.ValueToFloat64: does not model the float64 rounding of large int64 values; ints convert exactly.
- Common.AutoSetXaxis: lower-casing is ASCII only, where Go's `strings.ToLower` folds all of Unicode.
- Table.AddSeries: states that itemCount is the length of some added series, not the last one added, because the order of Go map iteration is unspecified. For the same reason the model never claims an order of series or of record keys.
- Line.PlotLine: requires the `--xaxis` flag to be present as text. Otherwise the type assertion at commands/line.go:181 panics; the command's own example at commands/line.go:128 passes no such flag. `title`, `subtitle` and `color-theme` at commands/line.go:231-236 are read the same way and are not modelled beyond Line.ChooseTheme.
- BoxPlot.PlotBoxPlot and Kline.PlotKline: read --xaxis as a cell path. As written, commands/boxplot.go:80 and commands/kline.go:108 read it as text, which panics whenever the flag is given (see Findings). With no --xaxis both versions agree.
- Pie.PlotPie: reads --xaxis as text, as commands/pie.go:64 does. The pie command declares no --xaxis flag (commands/pie.go:31-38), so in practice the axis name is XAxisSeries.
- Floats are modelled as mathematical reals, so NaN and the infinities, which `strconv.ParseFloat` accepts, cannot be represented. No model operation computes on floats.
- Error messages that share one `Common.Error` value: "1 unsupported input type" and "2 unsupported input type" (commands/common.go:238-240, commands/line.go:171-173) are both `UnsupportedInputType`; the element and input errors of plotBar (commands/bar.go:111, 115), plotBoxPlot, plotPie, plotKline (commands/kline.go:182, 186) and plotLine ("3 …" and "4 …", commands/line.go:221, 225) are all `UnsupportedValueType`. They differ only in their text.
- The flag getters: a flag of the wrong kind makes Go's type assertion panic; this is a precondition rather than an error path.
- `getSeries` in commands/line.go:36-45 is the same as the shared one and uses Common.SeriesTable.GetSeries; `ValueToFloat64` in commands/kline.go:79-88 is the same as the shared one and uses Common.ValueToFloat64.
- `createBoxPlotDataValue` (commands/boxplot.go:63-75): it is never called and depends on floating-point quantiles.
- Reading the input channel: a stream is a finite sequence already delivered.
- Logging, the verbose flag, flag declarations (commands/flags/flags.go), plugin registration and signal handling (main.go) and the help text (commands/nuplot.go): I/O, concurrency and declarations, with no data logic.
