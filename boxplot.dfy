/** The box plot command (commands/boxplot.go). */
module BoxPlot {
  import opened Wrappers
  import opened Nu
  import opened Common
  import opened Table

  /**
   * boxplot.go repeats plotBar under another name, so this method is
   * deliberately Bar.PlotBar again, kept as the model of its own Go function.
   * plotBoxPlot up to the hand-off to the chart library. Bare numbers and
   * numeric record fields are passed on as raw points, one per element, with
   * no quartile aggregation; otherwise it behaves as plotBar. The axis column
   * is read as the cell path the declared --xaxis flag delivers; boxplot.go:80
   * reads it as text, which panics on that flag (Common.XAxisCellPathReadAsText).
   */
  method PlotBoxPlot(p: Parsers, input: Value, flags: Flags) returns (r: Result<Chart, Error>)
    requires "xaxis" in flags ==> flags["xaxis"].FCellPath?
    ensures !input.VList? ==> r == Err(UnsupportedValueType)
    ensures input.VList? ==> PlottedWithAxis(Build(p, input.items, GetCellPathFlag(flags, "xaxis", XAxisSeries)), r)
  {
    var xAxisName := GetCellPathFlag(flags, "xaxis", XAxisSeries);
    match input {
      case VList(items) =>
        var b := BuildSeries(p, items, xAxisName);
        match b {
          case Err(e) =>
            return Err(e);
          case Ok(st) =>
            var c := AssembleWithAxis(st);
            return Ok(c);
        }
      case _ =>
        return Err(UnsupportedValueType);
    }
  }
}
