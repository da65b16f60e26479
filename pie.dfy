/** The pie chart command (commands/pie.go). */
module Pie {
  import opened Wrappers
  import opened Nu
  import opened Common
  import opened Table

  /**
   * `items` holds one named slice per key in `names`, each exactly once and
   * carrying that field's value; their order is map iteration order.
   */
  predicate IsSliceList(rec: map<string, Value>, names: set<string>, items: seq<Datum>)
  {
    && (forall i :: 0 <= i < |items| ==>
          items[i].Slice? && items[i].name in names && items[i].name in rec && items[i].value == Plain(rec[items[i].name]))
    && (forall k :: k in names && k in rec ==> exists i :: 0 <= i < |items| && items[i] == Slice(k, Plain(rec[k])))
    && (forall i, j :: 0 <= i < j < |items| ==> items[i] != items[j])
  }

  /**
   * The chart of a top-level record: one series "Items" with a slice per
   * numeric field other than the axis key; no series when there is no such
   * field, or when the axis key is "Items" itself (that series is then excluded).
   */
  predicate PieOfRecord(rec: map<string, Value>, xAxisName: string, c: Chart)
  {
    && c.xAxis == NoXAxis
    && (NumericFields(rec, xAxisName) == {} || xAxisName == DefaultSeries ==> c.series == map[])
    && (NumericFields(rec, xAxisName) != {} && xAxisName != DefaultSeries ==>
          c.series.Keys == {DefaultSeries} && IsSliceList(rec, NumericFields(rec, xAxisName), c.series[DefaultSeries]))
  }

  /** One more field's slice at the end keeps the list a slice list, now also of that field. */
  lemma SliceListAppend(rec: map<string, Value>, names: set<string>, before: seq<Datum>, k: string)
    requires IsSliceList(rec, names, before)
    requires k in rec && k !in names
    ensures IsSliceList(rec, names + {k}, before + [Slice(k, Plain(rec[k]))])
  {
    var after := before + [Slice(k, Plain(rec[k]))];
    forall x | x in names + {k} && x in rec
      ensures exists i :: 0 <= i < |after| && after[i] == Slice(x, Plain(rec[x]))
    {
      if x == k {
        assert after[|before|] == Slice(x, Plain(rec[x]));
      } else {
        var i :| 0 <= i < |before| && before[i] == Slice(x, Plain(rec[x]));
        assert after[i] == before[i];
      }
    }
  }

  /** Visiting one more field adds it to the numeric fields seen exactly when it is numeric and not the axis key. */
  lemma NumericFieldsStep(rec: map<string, Value>, skip: string, done: set<string>, k: string)
    requires k in rec && k !in done
    ensures NumericFields(rec, skip) * (done + {k}) ==
      if k != skip && IsNumber(rec[k]) then NumericFields(rec, skip) * done + {k} else NumericFields(rec, skip) * done
    ensures k !in NumericFields(rec, skip) * done
  {
  }

  /** The loop over a top-level record's fields (pie.go), in map iteration order. */
  method RecordSlices(rec: map<string, Value>, xAxisName: string) returns (series: Series)
    ensures NumericFields(rec, xAxisName) == {} ==> series == map[]
    ensures NumericFields(rec, xAxisName) != {} ==>
      series.Keys == {DefaultSeries} && IsSliceList(rec, NumericFields(rec, xAxisName), series[DefaultSeries])
  {
    var table := new SeriesTable();
    var keys := rec.Keys;
    while keys != {}
      invariant keys <= rec.Keys
      invariant NumericFields(rec, xAxisName) * (rec.Keys - keys) == {} ==> table.entries == map[]
      invariant NumericFields(rec, xAxisName) * (rec.Keys - keys) != {} ==>
        table.entries.Keys == {DefaultSeries} &&
        IsSliceList(rec, NumericFields(rec, xAxisName) * (rec.Keys - keys), table.entries[DefaultSeries])
      decreases keys
    {
      var k :| k in keys;
      var v := rec[k];
      ghost var done := rec.Keys - keys;
      ghost var names := NumericFields(rec, xAxisName) * done;
      assert rec.Keys - (keys - {k}) == done + {k};
      NumericFieldsStep(rec, xAxisName, done, k);
      if k != xAxisName && (v.VInt? || v.VFloat?) {
        SliceListAppend(rec, names, Lookup(table.entries, DefaultSeries), k);
        table.AppendTo(DefaultSeries, Slice(k, Plain(v)));
      }
      keys := keys - {k};
    }
    assert NumericFields(rec, xAxisName) * rec.Keys == NumericFields(rec, xAxisName);
    series := table.entries;
  }

  /**
   * plotPie up to the hand-off to the chart library: a list runs the shared
   * element loop, a top-level record becomes named slices, anything else is
   * refused; all series but the one named xAxisName are added and no x axis is set.
   */
  method PlotPie(p: Parsers, input: Value, flags: Flags) returns (r: Result<Chart, Error>)
    requires "xaxis" in flags ==> flags["xaxis"].FString?
    ensures input.VList? ==>
      match Build(p, input.items, GetStringFlag(flags, "xaxis", XAxisSeries))
      case Err(e) => r == Err(e)
      case Ok(st) => r == Ok(Chart(st.series - {st.xAxisName}, NoXAxis))
    ensures input.VRecord? ==> r.Ok? && PieOfRecord(input.fields, GetStringFlag(flags, "xaxis", XAxisSeries), r.value)
    ensures !input.VList? && !input.VRecord? ==> r == Err(UnsupportedValueType)
  {
    var xAxisName := GetStringFlag(flags, "xaxis", XAxisSeries);
    var series: Series;
    match input {
      case VList(items) =>
        var b := BuildSeries(p, items, xAxisName);
        if b.Err? {
          return Err(b.error);
        }
        series, xAxisName := b.value.series, b.value.xAxisName;
      case VRecord(rec) =>
        series := RecordSlices(rec, xAxisName);
      case _ =>
        return Err(UnsupportedValueType);
    }
    var added, itemCount := AddSeries(series, xAxisName);
    r := Ok(Chart(added, NoXAxis));
  }
}
