/**
 * The series-building pass of the bar, box plot and pie commands.
 *
 * commands/bar.go, commands/boxplot.go and the list branch of commands/pie.go
 * contain the same element loop, identical up to the data struct they build
 * and the text of the error message; it is modelled once here. The loop state is the series
 * table and the current axis column name `xAxisName`, which a record without
 * that column downgrades to XAxisSeries for the rest of the input.
 * commands/kline.go uses the same axis handling with its own row extractor
 * (module Kline), so the fold and its lemmas are stated for any row function.
 */
module Table {
  import opened Wrappers
  import opened Nu
  import opened Common

  /** The loop state: the series map and the current axis column. */
  datatype BuildState = BuildState(series: Series, xAxisName: string)

  /** What one loop iteration does to the state. */
  type RowFn = (BuildState, Value) -> Result<BuildState, Error>

  /** Running the loop over `items`, returning at the first error. */
  function Fold(row: RowFn, init: BuildState, items: seq<Value>): Result<BuildState, Error>
  {
    if items == [] then Ok(init)
    else match Fold(row, init, items[..|items| - 1])
      case Err(e) => Err(e)
      case Ok(st) => row(st, items[|items| - 1])
  }

  /**
   * The axis part of a record: while a column is active, its matched value is
   * appended to the series named after the column; a record without it turns
   * the axis into the index range.
   */
  function CaptureAxis(p: Parsers, t: Series, rec: map<string, Value>, xAxisName: string): (r: BuildState)
    ensures r.xAxisName == NextAxisName(xAxisName, VRecord(rec))
    ensures xAxisName != XAxisSeries ==>
      Lookup(r.series, xAxisName) == Lookup(t, xAxisName) + CapturedBy(p, xAxisName, VRecord(rec))
    ensures r.series - {xAxisName} == t - {xAxisName}
  {
    if xAxisName == XAxisSeries then BuildState(t, xAxisName)
    else if xAxisName in rec then BuildState(Append(t, xAxisName, Data(MatchXValue(p, rec[xAxisName]))), xAxisName)
    else BuildState(t, XAxisSeries)
  }

  /** What one element adds to the series of key k through its fields: its numeric field k, if any. */
  function FieldData(v: Value, k: string): seq<Datum>
  {
    if v.VRecord? && k in v.fields && IsNumber(v.fields[k]) then [Data(Plain(v.fields[k]))] else []
  }

  /**
   * One element of the list: a number or a record is accepted, anything else
   * fails; only a record without the active column changes the axis name, and
   * no series is ever removed. What it adds to each series is RowSeries.
   */
  function Row(p: Parsers, st: BuildState, item: Value): (r: Result<BuildState, Error>)
    ensures r.Err? <==> !Supported(item)
    ensures r.Err? ==> r.error == UnsupportedValueType
    ensures r.Ok? ==> r.value.xAxisName == NextAxisName(st.xAxisName, item)
    ensures r.Ok? ==> st.series.Keys <= r.value.series.Keys
  {
    match item
    case VInt(_) => Ok(BuildState(Append(st.series, DefaultSeries, Data(Plain(item))), st.xAxisName))
    case VFloat(_) => Ok(BuildState(Append(st.series, DefaultSeries, Data(Plain(item))), st.xAxisName))
    case VRecord(rec) => Ok(CaptureAxis(p, AddFields(st.series, rec, st.xAxisName), rec, st.xAxisName))
    case _ => Err(UnsupportedValueType)
  }

  /**
   * What one element adds to each series: a number one point to "Items"; a
   * record its numeric field k to series k for every k other than the active
   * column and "Items", and its matched column value to the column's series.
   */
  lemma RowSeries(p: Parsers, st: BuildState, item: Value)
    requires Supported(item)
    ensures IsNumber(item) ==>
      Lookup(Row(p, st, item).value.series, DefaultSeries) == Lookup(st.series, DefaultSeries) + [Data(Plain(item))]
    ensures st.xAxisName != XAxisSeries && st.xAxisName != DefaultSeries ==>
      Lookup(Row(p, st, item).value.series, st.xAxisName) == Lookup(st.series, st.xAxisName) + CapturedBy(p, st.xAxisName, item)
    ensures forall k :: k != st.xAxisName && k != DefaultSeries ==>
      Lookup(Row(p, st, item).value.series, k) == Lookup(st.series, k) + FieldData(item, k)
  {
    if item.VRecord? {
      var t := AddFields(st.series, item.fields, st.xAxisName);
      assert forall k :: k != st.xAxisName ==> Lookup(t, k) == Lookup(st.series, k) + FieldData(item, k);
    }
  }

  /**
   * The whole pass, from an empty series map and the axis name given by the
   * flag. It fails, with the unsupported-value error, exactly when some element
   * is neither a number nor a record; the downgrade is one-way, so the final
   * axis name is XAxisSeries exactly when some record lacks the given column.
   */
  function Build(p: Parsers, items: seq<Value>, xAxisName: string): (r: Result<BuildState, Error>)
    ensures r.Err? <==> HasUnsupported(items)
    ensures r.Err? ==> r.error == UnsupportedValueType
    ensures r.Ok? ==>
      r.value.xAxisName == if xAxisName != XAxisSeries && MissesColumn(items, xAxisName) then XAxisSeries else xAxisName
  {
    var row := (st, v) => Row(p, st, v);
    var init := BuildState(map[], xAxisName);
    RowFailsOn(p);
    FoldErrorIff(row, init, items, UnsupportedValueType);
    if Fold(row, init, items).Ok? then
      RowIsAxisRow(p);
      FoldAxisName(row, init, items);
      Fold(row, init, items)
    else Fold(row, init, items)
  }

  /**
   * One iteration of the element loop, done in place on `table`: it has the
   * effect Row describes and returns the new axis name, or Row's error.
   */
  method ApplyRow(p: Parsers, table: SeriesTable, xAxisName: string, item: Value) returns (r: Result<string, Error>)
    modifies table
    ensures r.Err? ==> Row(p, BuildState(old(table.entries), xAxisName), item) == Err(r.error)
    ensures r.Ok? ==> Row(p, BuildState(old(table.entries), xAxisName), item) == Ok(BuildState(table.entries, r.value))
  {
    match item {
      case VInt(_) =>
        table.AppendTo(DefaultSeries, Data(Plain(item)));
        r := Ok(xAxisName);
      case VFloat(_) =>
        table.AppendTo(DefaultSeries, Data(Plain(item)));
        r := Ok(xAxisName);
      case VRecord(rec) =>
        table.AppendFields(rec, xAxisName);
        r := Ok(xAxisName);
        if xAxisName != XAxisSeries {
          if xAxisName in rec {
            table.AppendTo(xAxisName, Data(MatchXValue(p, rec[xAxisName])));
          } else {
            r := Ok(XAxisSeries);
          }
        }
      case _ =>
        r := Err(UnsupportedValueType);
    }
  }

  /** The element loop of plotBar, plotBoxPlot and (for list input) plotPie. */
  method BuildSeries(p: Parsers, items: seq<Value>, xAxis: string) returns (r: Result<BuildState, Error>)
    ensures r == Build(p, items, xAxis)
  {
    var table := new SeriesTable();
    var xAxisName := xAxis;
    for i := 0 to |items|
      invariant Fold((st, v) => Row(p, st, v), BuildState(map[], xAxis), items[..i]) == Ok(BuildState(table.entries, xAxisName))
    {
      FoldStep((st, v) => Row(p, st, v), BuildState(map[], xAxis), items, i);
      var next := ApplyRow(p, table, xAxisName, items[i]);
      if next.Err? {
        FoldErrPersists((st, v) => Row(p, st, v), BuildState(map[], xAxis), items, i + 1);
        return Err(next.error);
      }
      xAxisName := next.value;
    }
    assert items[..|items|] == items;
    r := Ok(BuildState(table.entries, xAxisName));
  }

  // ---------------------------------------------------------------------------
  // Properties of the fold

  /** The loop over one more element is one more iteration after the loop so far. */
  lemma FoldStep(row: RowFn, init: BuildState, items: seq<Value>, i: nat)
    requires i < |items|
    ensures Fold(row, init, items[..i + 1]) ==
      match Fold(row, init, items[..i])
      case Err(e) => Err(e)
      case Ok(st) => row(st, items[i])
  {
    assert items[..i + 1][..i] == items[..i];
  }

  /** Once an iteration fails, the whole loop fails with that error. */
  lemma {:induction false} FoldErrPersists(row: RowFn, init: BuildState, items: seq<Value>, i: nat)
    requires i <= |items|
    requires Fold(row, init, items[..i]).Err?
    ensures Fold(row, init, items) == Fold(row, init, items[..i])
  {
    if i == |items| {
      assert items[..i] == items;
    } else {
      var n := |items| - 1;
      assert items[..n][..i] == items[..i];
      FoldErrPersists(row, init, items[..n], i);
    }
  }

  /** A successful loop had a successful loop on every prefix. */
  lemma {:induction false} FoldPrefixOk(row: RowFn, init: BuildState, items: seq<Value>, i: nat)
    requires i <= |items|
    requires Fold(row, init, items).Ok?
    ensures Fold(row, init, items[..i]).Ok?
  {
    if Fold(row, init, items[..i]).Err? {
      FoldErrPersists(row, init, items, i);
    }
  }

  /** A row function that fails, with error e, exactly on the elements that are neither numbers nor records. */
  ghost predicate FailsOnUnsupported(row: RowFn, e: Error)
  {
    forall s: BuildState, v: Value :: (row(s, v).Err? <==> !Supported(v)) && (row(s, v).Err? ==> row(s, v).error == e)
  }

  /** Such a loop fails exactly when some element is unsupported, and then with e. */
  lemma {:induction false} FoldErrorIff(row: RowFn, init: BuildState, items: seq<Value>, e: Error)
    requires FailsOnUnsupported(row, e)
    ensures Fold(row, init, items).Err? <==> HasUnsupported(items)
    ensures Fold(row, init, items).Err? ==> Fold(row, init, items).error == e
  {
    if items != [] {
      var n := |items| - 1;
      var front := items[..n];
      FoldErrorIff(row, init, front, e);
      if HasUnsupported(front) {
        var j :| 0 <= j < n && !Supported(front[j]);
        assert items[j] == front[j];
      } else {
        LastDecides(items);
      }
    }
  }

  /** When no element before the last is unsupported, the last one decides. */
  lemma LastDecides(items: seq<Value>)
    requires items != [] && !HasUnsupported(items[..|items| - 1])
    ensures HasUnsupported(items) <==> !Supported(items[|items| - 1])
  {
    var n := |items| - 1;
    forall j | 0 <= j < n ensures Supported(items[j]) {
      assert items[j] == items[..n][j];
    }
  }



  /** The axis column after one element. */
  function NextAxisName(name: string, v: Value): string
  {
    if name != XAxisSeries && v.VRecord? && name !in v.fields then XAxisSeries else name
  }

  /** A row function whose only change to the axis name is the downgrade on a record without the column. */
  ghost predicate AxisRow(row: RowFn)
  {
    forall s: BuildState, v: Value :: row(s, v).Ok? ==> row(s, v).value.xAxisName == NextAxisName(s.xAxisName, v)
  }

  /** Some record of the input lacks the column. */
  predicate MissesColumn(items: seq<Value>, name: string)
  {
    exists j :: 0 <= j < |items| && items[j].VRecord? && name !in items[j].fields
  }

  /**
   * The downgrade is sticky and global: after a successful loop the axis is the
   * index range exactly when some record lacks the column, and otherwise the
   * column given at the start.
   */
  lemma {:induction false} FoldAxisName(row: RowFn, init: BuildState, items: seq<Value>)
    requires AxisRow(row)
    requires Fold(row, init, items).Ok?
    ensures Fold(row, init, items).value.xAxisName ==
      if init.xAxisName != XAxisSeries && MissesColumn(items, init.xAxisName) then XAxisSeries else init.xAxisName
  {
    if items != [] {
      var n := |items| - 1;
      var front := items[..n];
      FoldPrefixOk(row, init, items, n);
      FoldAxisName(row, init, front);
      var st := Fold(row, init, front).value;
      assert Fold(row, init, items) == row(st, items[n]);
      assert forall j :: 0 <= j < n ==> front[j] == items[j];
      if init.xAxisName != XAxisSeries && MissesColumn(items, init.xAxisName) && !MissesColumn(front, init.xAxisName) {
        var j :| 0 <= j < |items| && items[j].VRecord? && init.xAxisName !in items[j].fields;
        assert j == n;
      }
    }
  }

  /** The matched axis values of every record that has the column, in input order. */
  function AxisColumn(p: Parsers, items: seq<Value>, name: string): seq<Datum>
  {
    if items == [] then []
    else
      var v := items[|items| - 1];
      AxisColumn(p, items[..|items| - 1], name) +
        if v.VRecord? && name in v.fields then [Data(MatchXValue(p, v.fields[name]))] else []
  }

  /** What one element adds to the series named after an active axis column. */
  function CapturedBy(p: Parsers, name: string, v: Value): seq<Datum>
  {
    if v.VRecord? && name in v.fields then [Data(MatchXValue(p, v.fields[name]))] else []
  }

  /** A row function that touches the active column's series only to append the captured value. */
  ghost predicate CapturesAxis(row: RowFn, p: Parsers)
  {
    forall s: BuildState, v: Value ::
      row(s, v).Ok? && s.xAxisName != XAxisSeries && s.xAxisName != DefaultSeries ==>
        Lookup(row(s, v).value.series, s.xAxisName) == Lookup(s.series, s.xAxisName) + CapturedBy(p, s.xAxisName, v)
  }

  /**
   * Without a downgrade, the series named after the axis column holds exactly
   * the matched column values of the records, in input order (the column
   * name must differ from the default series, which bare numbers also reach).
   */
  lemma {:induction false} FoldAxisColumn(row: RowFn, p: Parsers, init: BuildState, items: seq<Value>)
    requires AxisRow(row) && CapturesAxis(row, p)
    requires init.xAxisName != XAxisSeries && init.xAxisName != DefaultSeries
    requires Fold(row, init, items).Ok?
    requires !MissesColumn(items, init.xAxisName)
    ensures Lookup(Fold(row, init, items).value.series, init.xAxisName) ==
      Lookup(init.series, init.xAxisName) + AxisColumn(p, items, init.xAxisName)
  {
    if items != [] {
      var n := |items| - 1;
      var front := items[..n];
      FoldPrefixOk(row, init, items, n);
      assert !MissesColumn(front, init.xAxisName) by {
        assert forall j :: 0 <= j < n ==> front[j] == items[j];
      }
      FoldAxisColumn(row, p, init, front);
      FoldAxisName(row, init, front);
      var st := Fold(row, init, front).value;
      assert Fold(row, init, items) == row(st, items[n]);
      assert CapturedBy(p, init.xAxisName, items[n]) ==
        if items[n].VRecord? && init.xAxisName in items[n].fields
        then [Data(MatchXValue(p, items[n].fields[init.xAxisName]))] else [];
    }
  }

  // ---------------------------------------------------------------------------
  // Properties of the bar/boxplot/pie pass

  lemma RowIsAxisRow(p: Parsers)
    ensures AxisRow((st, v) => Row(p, st, v))
  {
  }

  lemma RowCapturesAxis(p: Parsers)
    ensures CapturesAxis((st, v) => Row(p, st, v), p)
  {
    forall s: BuildState, v: Value | Row(p, s, v).Ok? && s.xAxisName != XAxisSeries && s.xAxisName != DefaultSeries
      ensures Lookup(Row(p, s, v).value.series, s.xAxisName) == Lookup(s.series, s.xAxisName) + CapturedBy(p, s.xAxisName, v)
    {
      RowSeries(p, s, v);
    }
  }

  lemma RowFailsOn(p: Parsers)
    ensures FailsOnUnsupported((st, v) => Row(p, st, v), UnsupportedValueType)
  {
  }

  /** An element kind the pass accepts. */
  predicate Supported(v: Value)
  {
    IsNumber(v) || v.VRecord?
  }

  /** Some element of the input is neither a number nor a record. */
  predicate HasUnsupported(items: seq<Value>)
  {
    exists j :: 0 <= j < |items| && !Supported(items[j])
  }

  /** Without a downgrade, the column's series holds the matched column value of each record, in order. */
  lemma BuildAxisColumn(p: Parsers, items: seq<Value>, xAxisName: string)
    requires xAxisName != XAxisSeries && xAxisName != DefaultSeries
    requires Build(p, items, xAxisName).Ok?
    requires !MissesColumn(items, xAxisName)
    ensures Lookup(Build(p, items, xAxisName).value.series, xAxisName) == AxisColumn(p, items, xAxisName)
  {
    RowIsAxisRow(p);
    RowCapturesAxis(p);
    FoldAxisColumn((st, v) => Row(p, st, v), p, BuildState(map[], xAxisName), items);
  }

  /** The numeric values of column k over the records of the input, in input order. */
  function ColumnData(items: seq<Value>, k: string): seq<Datum>
  {
    if items == [] then [] else ColumnData(items[..|items| - 1], k) + FieldData(items[|items| - 1], k)
  }

  /**
   * Every data column becomes its own series: after a successful pass, the
   * series of a key other than the axis column, XAxisSeries and "Items" holds
   * exactly that column's numeric values, one per record that has one, in
   * input order (before and after a downgrade alike).
   */
  lemma {:induction false} BuildColumn(p: Parsers, items: seq<Value>, xAxisName: string, k: string)
    requires k != xAxisName && k != XAxisSeries && k != DefaultSeries
    requires Build(p, items, xAxisName).Ok?
    ensures Lookup(Build(p, items, xAxisName).value.series, k) == ColumnData(items, k)
  {
    if items != [] {
      var n := |items| - 1;
      var front := items[..n];
      FoldPrefixOk((st, v) => Row(p, st, v), BuildState(map[], xAxisName), items, n);
      BuildColumn(p, front, xAxisName, k);
      var st := Build(p, front, xAxisName).value;
      assert Build(p, items, xAxisName) == Row(p, st, items[n]);
      RowSeries(p, st, items[n]);
    }
  }

  /** The points of a list of bare numbers, in order. */
  function NumberData(items: seq<Value>): seq<Datum>
  {
    seq(|items|, j requires 0 <= j < |items| => Data(Plain(items[j])))
  }

  /** A list of bare numbers becomes the single series "Items", one raw point per number, in order. */
  lemma {:induction false} BuildNumbers(p: Parsers, items: seq<Value>, xAxisName: string)
    requires forall j :: 0 <= j < |items| ==> IsNumber(items[j])
    ensures Build(p, items, xAxisName) ==
      Ok(BuildState(if items == [] then map[] else map[DefaultSeries := NumberData(items)], xAxisName))
  {
    if items != [] {
      var n := |items| - 1;
      var front := items[..n];
      BuildNumbers(p, front, xAxisName);
      assert forall j :: 0 <= j < n ==> front[j] == items[j];
      assert NumberData(items) == NumberData(front) + [Data(Plain(items[n]))];
      var st := Build(p, front, xAxisName).value;
      assert Build(p, items, xAxisName) == Row(p, st, items[n]);
      assert Lookup(st.series, DefaultSeries) == NumberData(front);
      assert Row(p, st, items[n]).value.series == map[DefaultSeries := NumberData(items)];
    }
  }

  /** A row function that never removes a series. */
  ghost predicate KeepsKeys(row: RowFn)
  {
    forall s: BuildState, v: Value :: row(s, v).Ok? ==> s.series.Keys <= row(s, v).value.series.Keys
  }

  /** Such a loop only ever gains names: every prefix succeeds with a subset of the final keys. */
  lemma {:induction false} FoldKeysGrow(row: RowFn, init: BuildState, items: seq<Value>, i: nat)
    requires KeepsKeys(row)
    requires i <= |items|
    requires Fold(row, init, items).Ok?
    ensures Fold(row, init, items[..i]).Ok?
    ensures Fold(row, init, items[..i]).value.series.Keys <= Fold(row, init, items).value.series.Keys
  {
    if i < |items| {
      var n := |items| - 1;
      var front := items[..n];
      assert front[..i] == items[..i];
      FoldPrefixOk(row, init, items, n);
      FoldKeysGrow(row, init, front, i);
    } else {
      assert items[..i] == items;
    }
  }

  /** The series map only ever gains names during the pass. */
  lemma BuildKeysGrow(p: Parsers, items: seq<Value>, xAxisName: string, i: nat)
    requires i <= |items|
    requires Build(p, items, xAxisName).Ok?
    ensures Build(p, items[..i], xAxisName).Ok?
    ensures Build(p, items[..i], xAxisName).value.series.Keys <= Build(p, items, xAxisName).value.series.Keys
  {
    assert KeepsKeys((st, v) => Row(p, st, v));
    FoldKeysGrow((st, v) => Row(p, st, v), BuildState(map[], xAxisName), items, i);
  }

  /**
   * The downgrade does not remove what was captured: if a record carrying the
   * column precedes the first record without it, the column's series stays in
   * the map, and since the axis name is now XAxisSeries it is no longer excluded.
   */
  lemma DowngradeKeepsColumn(p: Parsers, items: seq<Value>, xAxisName: string, j: nat)
    requires xAxisName != XAxisSeries
    requires j < |items| && items[j].VRecord? && xAxisName in items[j].fields
    requires !MissesColumn(items[..j], xAxisName)
    requires Build(p, items, xAxisName).Ok?
    ensures xAxisName in Build(p, items, xAxisName).value.series
  {
    var row := (st, v) => Row(p, st, v);
    var init := BuildState(map[], xAxisName);
    BuildKeysGrow(p, items, xAxisName, j + 1);
    FoldPrefixOk(row, init, items, j);
    FoldStep(row, init, items, j);
    var st := Build(p, items[..j], xAxisName).value;
    assert st.xAxisName == xAxisName;
    RowSeries(p, st, items[j]);
    assert Lookup(Row(p, st, items[j]).value.series, xAxisName) != [];
  }

  // ---------------------------------------------------------------------------
  // Handing the series to the chart

  /** The x axis given to the chart, if any. */
  datatype XAxis = Categories(values: seq<Datum>) | IndexRange(indices: seq<int>) | NoXAxis

  /** The series added to the chart (their order is map iteration order and is not modelled) and its x axis. */
  datatype Chart = Chart(series: Series, xAxis: XAxis)

  /** xs is [0, 1, ..., |xs| - 1]. */
  predicate IsIndexRange(xs: seq<int>)
  {
    forall i :: 0 <= i < |xs| ==> xs[i] == i
  }

  /** n is the length of one of the series, or 0 when there are none. */
  predicate IsSomeLength(series: Series, n: nat)
  {
    (series == map[] && n == 0) || exists k :: k in series && |series[k]| == n
  }

  /**
   * The final loop over the series map: every series except `exclude` is added;
   * itemCount is the length of the last one added, in map iteration order.
   */
  method AddSeries(series: Series, exclude: string) returns (added: Series, itemCount: nat)
    ensures added == series - {exclude}
    ensures IsSomeLength(added, itemCount)
  {
    added := map[];
    itemCount := 0;
    var names := series.Keys;
    while names != {}
      invariant names <= series.Keys
      invariant added == map k | k in series && k !in names && k != exclude :: series[k]
      invariant IsSomeLength(added, itemCount)
      decreases names
    {
      var name :| name in names;
      if name != exclude {
        itemCount := |series[name]|;
        added := added[name := series[name]];
        assert name in added && |added[name]| == itemCount;
      }
      names := names - {name};
    }
    assert added == series - {exclude};
  }

  /** `xRange := make([]int, n)` filled with its own indices. */
  method MakeRange(n: nat) returns (xs: seq<int>)
    ensures |xs| == n && IsIndexRange(xs)
  {
    var xRange := new int[n];
    for i := 0 to n
      invariant forall j :: 0 <= j < i ==> xRange[j] == j
    {
      xRange[i] := i;
    }
    xs := xRange[..];
  }

  /**
   * The chart built from the final state: every series but the one named
   * xAxisName; that series as the x axis while a column is active, else the
   * index range over the length of one of the added series.
   */
  predicate AssembledWithAxis(st: BuildState, c: Chart)
  {
    && c.series == st.series - {st.xAxisName}
    && (st.xAxisName != XAxisSeries ==> c.xAxis == Categories(Lookup(st.series, st.xAxisName)))
    && (st.xAxisName == XAxisSeries ==>
          c.xAxis.IndexRange? && IsIndexRange(c.xAxis.indices) && IsSomeLength(c.series, |c.xAxis.indices|))
  }

  /** The tail of plotBar, plotBoxPlot and plotKline after the element loop. */
  method AssembleWithAxis(st: BuildState) returns (c: Chart)
    ensures AssembledWithAxis(st, c)
  {
    var added, itemCount := AddSeries(st.series, st.xAxisName);
    if st.xAxisName != XAxisSeries {
      c := Chart(added, Categories(Lookup(st.series, st.xAxisName)));
    } else {
      var xRange := MakeRange(itemCount);
      c := Chart(added, IndexRange(xRange));
    }
  }

  /** What a plot function returns for a pass: its error, or a chart assembled from its final state. */
  predicate PlottedWithAxis(b: Result<BuildState, Error>, r: Result<Chart, Error>)
  {
    match b
    case Err(e) => r == Err(e)
    case Ok(st) => r.Ok? && AssembledWithAxis(st, r.value)
  }

  /** When all added series have the same length, the index axis is 0..length-1 whatever the iteration order. */
  lemma IndexAxisOfUniformSeries(st: BuildState, c: Chart, len: nat)
    requires AssembledWithAxis(st, c) && st.xAxisName == XAxisSeries
    requires c.series != map[]
    requires forall k :: k in c.series ==> |c.series[k]| == len
    ensures c.xAxis == IndexRange(seq(len, i => i))
  {
    var xs := c.xAxis.indices;
    assert |xs| == len;
    assert xs == seq(len, i => i);
  }
}
