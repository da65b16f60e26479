/** The bar chart command (commands/bar.go). */
module Bar {
  import opened Wrappers
  import opened Nu
  import opened Common
  import opened Table

  /**
   * plotBar up to the hand-off to the chart library: input other than a list
   * is refused; otherwise the element loop runs and, if it succeeds, every
   * series but the one named after the (possibly downgraded) axis column is
   * added, with that series or the index range as the x axis.
   */
  method PlotBar(p: Parsers, input: Value, flags: Flags) returns (r: Result<Chart, Error>)
    requires "xaxis" in flags ==> flags["xaxis"].FCellPath?
    ensures !input.VList? ==> r == Err(UnsupportedValueType)
    ensures input.VList? ==> PlottedWithAxis(Build(p, input.items, GetCellPathFlag(flags, "xaxis", XAxisSeries)), r)
  {
    var xAxisName := GetCellPathFlag(flags, "xaxis", XAxisSeries);
    match input {
      case VList(items) =>
        var b := BuildSeries(p, items, xAxisName);
        match b {
          case Err(e) =>
            return Err(e);
          case Ok(st) =>
            var c := AssembleWithAxis(st);
            return Ok(c);
        }
      case _ =>
        return Err(UnsupportedValueType);
    }
  }

  /**
   * A non-empty list of bare numbers without --xaxis is charted as the single
   * series "Items" holding the numbers in input order, over the axis 0..n-1.
   */
  lemma BarOfNumbers(p: Parsers, items: seq<Value>, r: Result<Chart, Error>)
    requires items != [] && forall j :: 0 <= j < |items| ==> IsNumber(items[j])
    requires PlottedWithAxis(Build(p, items, XAxisSeries), r)
    ensures r == Ok(Chart(map[DefaultSeries := NumberData(items)], IndexRange(seq(|items|, i => i))))
  {
    BuildNumbers(p, items, XAxisSeries);
    var st := Build(p, items, XAxisSeries).value;
    assert r.value.series == map[DefaultSeries := NumberData(items)];
    assert DefaultSeries in r.value.series;
    IndexAxisOfUniformSeries(st, r.value, |items|);
  }

  /**
   * After a downgrade the column's own series, filled with axis values by the
   * records before the first one lacking the column, is added as a data series.
   */
  lemma BarDowngradeShowsColumn(p: Parsers, items: seq<Value>, xAxisName: string, j: nat, r: Result<Chart, Error>)
    requires xAxisName != XAxisSeries
    requires j < |items| && items[j].VRecord? && xAxisName in items[j].fields
    requires !MissesColumn(items[..j], xAxisName) && MissesColumn(items, xAxisName)
    requires Build(p, items, xAxisName).Ok?
    requires PlottedWithAxis(Build(p, items, xAxisName), r)
    ensures r.Ok? && xAxisName in r.value.series && r.value.xAxis.IndexRange?
  {
    DowngradeKeepsColumn(p, items, xAxisName, j);
  }
}
