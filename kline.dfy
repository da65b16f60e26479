/**
 * The kline (candlestick) command (commands/kline.go). Every element becomes
 * one 4-tuple [First, Last, Min, Max] in the series "Items": a record through
 * its four named columns, a sub-list through its four numbers. The axis column
 * is captured and downgraded as in the bar chart, and is read as the cell path
 * the declared --xaxis flag delivers (kline.go:108 reads it as text, which
 * panics on that flag). The file's own copy of ValueToFloat64
 * (kline.go:79-88) is identical to Common.ValueToFloat64 and uses it.
 */
module Kline {
  import opened Wrappers
  import opened Nu
  import opened Common
  import opened Table

  /** The record columns, in the order of the tuple. */
  const Columns: seq<string> := ["First", "Last", "Min", "Max"]

  /** Every element converted to a float, or an error as soon as one is not a number. */
  function ConvertAll(arr: seq<Value>): (r: Result<seq<real>, Error>)
    ensures r.Ok? <==> forall i :: 0 <= i < |arr| ==> IsNumber(arr[i])
    ensures r.Ok? ==> |r.value| == |arr| && forall i :: 0 <= i < |arr| ==> ValueToFloat64(arr[i]) == Ok(r.value[i])
    ensures r.Err? ==> r.error == InvalidArrayValues
  {
    if arr == [] then Ok([])
    else
      var n := |arr| - 1;
      assert forall i :: 0 <= i < n ==> arr[..n][i] == arr[i];
      match ConvertAll(arr[..n])
      case Err(e) => Err(e)
      case Ok(front) =>
        match ValueToFloat64(arr[n])
        case Err(_) => Err(InvalidArrayValues)
        case Ok(x) => Ok(front + [x])
  }

  /** convertValueArray: the converted list, or an empty list and an error. */
  method ConvertValueArray(arr: seq<Value>) returns (res: seq<real>, err: Option<Error>)
    ensures err.None? ==> ConvertAll(arr) == Ok(res)
    ensures err.Some? ==> ConvertAll(arr) == Err(err.value) && res == []
  {
    res := [];
    for i := 0 to |arr|
      invariant ConvertAll(arr[..i]) == Ok(res)
    {
      assert arr[..i + 1][..i] == arr[..i];
      var v := ValueToFloat64(arr[i]);
      if v.Ok? {
        res := res + [v.value];
      } else {
        assert !IsNumber(arr[i]);
        return [], Some(InvalidArrayValues);
      }
    }
    assert arr[..|arr|] == arr;
    err := None;
  }

  /** One slot of a record's tuple: 0 for the axis column or a missing column, else the field as a float. */
  function Slot(rec: map<string, Value>, skip: string, col: string): (r: Result<real, Error>)
    ensures col == skip || col !in rec ==> r == Ok(0.0)
    ensures r.Err? <==> col != skip && col in rec && !IsNumber(rec[col])
    ensures col != skip && col in rec && rec[col].VInt? ==> r == Ok(rec[col].i as real)
    ensures col != skip && col in rec && rec[col].VFloat? ==> r == Ok(rec[col].f)
  {
    if col == skip || col !in rec then Ok(0.0) else ValueToFloat64(rec[col])
  }

  /** The tuple of a record row. */
  function CandleOf(rec: map<string, Value>, skip: string): (r: Result<seq<real>, Error>)
    ensures r.Ok? ==> |r.value| == 4
    ensures r.Ok? ==> forall i :: 0 <= i < 4 && (Columns[i] == skip || Columns[i] !in rec) ==> r.value[i] == 0.0
    ensures r.Ok? ==> forall i :: 0 <= i < 4 && Columns[i] != skip && Columns[i] in rec ==>
      ValueToFloat64(rec[Columns[i]]) == Ok(r.value[i])
    ensures r.Err? <==> exists i :: 0 <= i < 4 && Columns[i] != skip && Columns[i] in rec && !IsNumber(rec[Columns[i]])
    ensures r.Err? ==> r.error == InvalidColumnValues
  {
    var first, last, min, max := Slot(rec, skip, "First"), Slot(rec, skip, "Last"), Slot(rec, skip, "Min"), Slot(rec, skip, "Max");
    assert Columns[0] == "First" && Columns[1] == "Last" && Columns[2] == "Min" && Columns[3] == "Max";
    if first.Ok? && last.Ok? && min.Ok? && max.Ok? then Ok([first.value, last.value, min.value, max.value])
    else Err(InvalidColumnValues)
  }

  /** A slot as it stands after the fields in `done` have been visited. */
  predicate SlotSoFar(rec: map<string, Value>, skip: string, col: string, done: set<string>, ok: bool, x: real)
  {
    var s := if col in done then Slot(rec, skip, col) else Ok(0.0);
    ok == s.Ok? && (ok ==> x == s.value)
  }

  /** The loop over a record row's fields in plotKline, in map iteration order. */
  method RecordCandle(rec: map<string, Value>, skip: string) returns (r: Result<seq<real>, Error>)
    ensures r == CandleOf(rec, skip)
  {
    var first, last, min, max := 0.0, 0.0, 0.0, 0.0;
    var ok1, ok2, ok3, ok4 := true, true, true, true;   // okN == nil
    var keys := rec.Keys;
    while keys != {}
      invariant keys <= rec.Keys
      invariant SlotSoFar(rec, skip, "First", rec.Keys - keys, ok1, first)
      invariant SlotSoFar(rec, skip, "Last", rec.Keys - keys, ok2, last)
      invariant SlotSoFar(rec, skip, "Min", rec.Keys - keys, ok3, min)
      invariant SlotSoFar(rec, skip, "Max", rec.Keys - keys, ok4, max)
      decreases keys
    {
      var k :| k in keys;
      var v := rec[k];
      assert rec.Keys - (keys - {k}) == (rec.Keys - keys) + {k};
      if k != skip {
        var c := ValueToFloat64(v);
        var x := if c.Ok? then c.value else 0.0;
        if k == "First" {
          first, ok1 := x, c.Ok?;
        }
        if k == "Last" {
          last, ok2 := x, c.Ok?;
        }
        if k == "Min" {
          min, ok3 := x, c.Ok?;
        }
        if k == "Max" {
          max, ok4 := x, c.Ok?;
        }
      }
      keys := keys - {k};
    }
    if ok1 && ok2 && ok3 && ok4 {
      r := Ok([first, last, min, max]);
    } else {
      r := Err(InvalidColumnValues);
    }
  }

  /** Element v fails when the axis column in use is `skip`. */
  predicate FailsUnder(v: Value, skip: string)
  {
    match v
    case VRecord(rec) => CandleOf(rec, skip).Err?
    case VList(xs) => |xs| != 4 || ConvertAll(xs).Err?
    case _ => true
  }

  /** The error a failing element gives. */
  function ErrorOf(v: Value): Error
  {
    match v
    case VRecord(_) => InvalidColumnValues
    case VList(xs) => if |xs| != 4 then SubListLength else InvalidArrayValues
    case _ => UnsupportedValueType
  }

  /**
   * One element of the input: a record row or a 4-element sub-list of numbers
   * is accepted; a present non-number First/Last/Min/Max, a sub-list of another
   * length or with a non-number, and every other kind fail, each with its own
   * error. Only a record without the active column changes the axis name.
   * What it adds to the series is KlineRowCandle.
   */
  function KlineRow(p: Parsers, st: BuildState, item: Value): (r: Result<BuildState, Error>)
    ensures r.Err? <==> FailsUnder(item, st.xAxisName)
    ensures r.Err? ==> r.error == ErrorOf(item)
    ensures r.Ok? ==> r.value.xAxisName == NextAxisName(st.xAxisName, item)
  {
    match item
    case VRecord(rec) =>
      (match CandleOf(rec, st.xAxisName)
       case Err(e) => Err(e)
       case Ok(c) => Ok(CaptureAxis(p, Append(st.series, DefaultSeries, Candle(c)), rec, st.xAxisName)))
    case VList(xs) =>
      if |xs| != 4 then Err(SubListLength)
      else
        (match ConvertAll(xs)
         case Err(e) => Err(e)
         case Ok(c) => Ok(BuildState(Append(st.series, DefaultSeries, Candle(c)), st.xAxisName)))
    case _ => Err(UnsupportedValueType)
  }

  /**
   * The whole element loop of plotKline, from an empty series map and the
   * axis column given by the flag; after a successful pass the axis is the
   * index range exactly when a column was given and some record lacks it.
   */
  function KlineBuild(p: Parsers, items: seq<Value>, xAxisName: string): (r: Result<BuildState, Error>)
    ensures r.Ok? ==>
      r.value.xAxisName == if xAxisName != XAxisSeries && MissesColumn(items, xAxisName) then XAxisSeries else xAxisName
  {
    var row := (st, v) => KlineRow(p, st, v);
    var init := BuildState(map[], xAxisName);
    if Fold(row, init, items).Ok? then
      KlineRowIsAxisRow(p);
      FoldAxisName(row, init, items);
      Fold(row, init, items)
    else Fold(row, init, items)
  }

  /**
   * One iteration of plotKline's element loop, done in place on `table`: it
   * has the effect KlineRow describes and returns the new axis name, or KlineRow's error.
   */
  method ApplyKlineRow(p: Parsers, table: SeriesTable, xAxisName: string, item: Value) returns (r: Result<string, Error>)
    modifies table
    ensures r.Err? ==> KlineRow(p, BuildState(old(table.entries), xAxisName), item) == Err(r.error)
    ensures r.Ok? ==> KlineRow(p, BuildState(old(table.entries), xAxisName), item) == Ok(BuildState(table.entries, r.value))
  {
    match item {
      case VRecord(rec) =>
        var c := RecordCandle(rec, xAxisName);
        if c.Err? {
          return Err(c.error);
        }
        table.AppendTo(DefaultSeries, Candle(c.value));
        r := Ok(xAxisName);
        if xAxisName != XAxisSeries {
          if xAxisName in rec {
            table.AppendTo(xAxisName, Data(MatchXValue(p, rec[xAxisName])));
          } else {
            r := Ok(XAxisSeries);
          }
        }
      case VList(xs) =>
        if |xs| == 4 {
          var lst, err := ConvertValueArray(xs);
          if err.None? {
            table.AppendTo(DefaultSeries, Candle(lst));
            r := Ok(xAxisName);
          } else {
            r := Err(err.value);
          }
        } else {
          r := Err(SubListLength);
        }
      case _ =>
        r := Err(UnsupportedValueType);
    }
  }

  /** The element loop of plotKline. */
  method KlineSeries(p: Parsers, items: seq<Value>, xAxis: string) returns (r: Result<BuildState, Error>)
    ensures r == KlineBuild(p, items, xAxis)
  {
    var table := new SeriesTable();
    var xAxisName := xAxis;
    for i := 0 to |items|
      invariant Fold((st, v) => KlineRow(p, st, v), BuildState(map[], xAxis), items[..i]) == Ok(BuildState(table.entries, xAxisName))
    {
      FoldStep((st, v) => KlineRow(p, st, v), BuildState(map[], xAxis), items, i);
      var next := ApplyKlineRow(p, table, xAxisName, items[i]);
      if next.Err? {
        FoldErrPersists((st, v) => KlineRow(p, st, v), BuildState(map[], xAxis), items, i + 1);
        return Err(next.error);
      }
      xAxisName := next.value;
    }
    assert items[..|items|] == items;
    r := Ok(BuildState(table.entries, xAxisName));
  }

  /** plotKline up to the hand-off to the chart library, with --xaxis read as a cell path. */
  method PlotKline(p: Parsers, input: Value, flags: Flags) returns (r: Result<Chart, Error>)
    requires "xaxis" in flags ==> flags["xaxis"].FCellPath?
    ensures !input.VList? ==> r == Err(UnsupportedValueType)
    ensures input.VList? ==> PlottedWithAxis(KlineBuild(p, input.items, GetCellPathFlag(flags, "xaxis", XAxisSeries)), r)
  {
    var xAxisName := GetCellPathFlag(flags, "xaxis", XAxisSeries);
    match input {
      case VList(items) =>
        var b := KlineSeries(p, items, xAxisName);
        match b {
          case Err(e) =>
            return Err(e);
          case Ok(st) =>
            var c := AssembleWithAxis(st);
            return Ok(c);
        }
      case _ =>
        return Err(UnsupportedValueType);
    }
  }

  // ---------------------------------------------------------------------------
  // Properties

  lemma KlineRowIsAxisRow(p: Parsers)
    ensures AxisRow((st, v) => KlineRow(p, st, v))
  {
  }

  lemma KlineRowCapturesAxis(p: Parsers)
    ensures CapturesAxis((st, v) => KlineRow(p, st, v), p)
  {
  }

  /** Without a downgrade, the column's series holds the matched column value of each record, in order. */
  lemma KlineAxisColumn(p: Parsers, items: seq<Value>, xAxisName: string)
    requires xAxisName != XAxisSeries && xAxisName != DefaultSeries
    requires KlineBuild(p, items, xAxisName).Ok?
    requires !MissesColumn(items, xAxisName)
    ensures Lookup(KlineBuild(p, items, xAxisName).value.series, xAxisName) == AxisColumn(p, items, xAxisName)
  {
    KlineRowIsAxisRow(p);
    KlineRowCapturesAxis(p);
    FoldAxisColumn((st, v) => KlineRow(p, st, v), p, BuildState(map[], xAxisName), items);
  }

  /** The axis column in use when element i is reached: downgraded once an earlier record lacked it. */
  function AxisNameBefore(items: seq<Value>, i: nat, name: string): string
    requires i <= |items|
  {
    if name != XAxisSeries && MissesColumn(items[..i], name) then XAxisSeries else name
  }

  /** d is the 4-tuple element i yields: its record's tuple under the axis column then in use, or its sub-list converted. */
  predicate CandleOfElement(items: seq<Value>, i: nat, name: string, d: Datum)
    requires i < |items|
  {
    && d.Candle? && |d.values| == 4
    && (items[i].VRecord? ==> CandleOf(items[i].fields, AxisNameBefore(items, i, name)) == Ok(d.values))
    && (items[i].VList? ==> ConvertAll(items[i].items) == Ok(d.values))
  }

  /**
   * One successful element appends exactly one 4-tuple to "Items": the
   * record's tuple under the active column, or the sub-list converted; a
   * record's column value goes to the column's series; no other series changes.
   */
  lemma KlineRowCandle(p: Parsers, st: BuildState, v: Value)
    requires st.xAxisName != DefaultSeries
    requires KlineRow(p, st, v).Ok?
    ensures var c := Lookup(KlineRow(p, st, v).value.series, DefaultSeries);
      && |c| == |Lookup(st.series, DefaultSeries)| + 1
      && c[..|c| - 1] == Lookup(st.series, DefaultSeries)
      && c[|c| - 1].Candle? && |c[|c| - 1].values| == 4
      && (v.VRecord? ==> CandleOf(v.fields, st.xAxisName) == Ok(c[|c| - 1].values))
      && (v.VList? ==> ConvertAll(v.items) == Ok(c[|c| - 1].values))
    ensures st.xAxisName != XAxisSeries ==>
      Lookup(KlineRow(p, st, v).value.series, st.xAxisName) == Lookup(st.series, st.xAxisName) + CapturedBy(p, st.xAxisName, v)
    ensures KlineRow(p, st, v).value.series - {DefaultSeries, st.xAxisName} == st.series - {DefaultSeries, st.xAxisName}
  {
    if v.VRecord? {
      var t := Append(st.series, DefaultSeries, Candle(CandleOf(v.fields, st.xAxisName).value));
      assert Lookup(CaptureAxis(p, t, v.fields, st.xAxisName).series, DefaultSeries) == Lookup(t, DefaultSeries);
      assert t - {DefaultSeries, st.xAxisName} == st.series - {DefaultSeries, st.xAxisName};
    }
  }

  /**
   * Every element yields exactly one 4-tuple in "Items", in input order: the
   * i-th is the [First, Last, Min, Max] tuple of record i (read with the axis
   * column in use at that point), or sub-list i converted in its own order.
   */
  lemma {:induction false} KlineOneCandlePerRow(p: Parsers, items: seq<Value>, xAxisName: string)
    requires xAxisName != DefaultSeries
    requires KlineBuild(p, items, xAxisName).Ok?
    ensures var c := Lookup(KlineBuild(p, items, xAxisName).value.series, DefaultSeries);
      |c| == |items| && forall i :: 0 <= i < |items| ==> CandleOfElement(items, i, xAxisName, c[i])
  {
    if items != [] {
      var n := |items| - 1;
      FoldPrefixOk((st, v) => KlineRow(p, st, v), BuildState(map[], xAxisName), items, n);
      KlineOneCandlePerRow(p, items[..n], xAxisName);
      var st := KlineBuild(p, items[..n], xAxisName).value;
      KlineLastStep(p, items, xAxisName);
      KlineRowCandle(p, st, items[n]);
      var c := Lookup(KlineBuild(p, items, xAxisName).value.series, DefaultSeries);
      assert CandleOfElement(items, n, xAxisName, c[n]);
      CandlesExtend(items, xAxisName, Lookup(st.series, DefaultSeries), c);
    }
  }

  /** The tuples of the earlier elements stay what they were when one more element is appended. */
  lemma CandlesExtend(items: seq<Value>, name: string, c0: seq<Datum>, c: seq<Datum>)
    requires items != []
    requires |c0| == |items| - 1 && |c| == |items| && c[..|items| - 1] == c0
    requires forall i :: 0 <= i < |c0| ==> CandleOfElement(items[..|items| - 1], i, name, c0[i])
    requires CandleOfElement(items, |items| - 1, name, c[|items| - 1])
    ensures forall i :: 0 <= i < |items| ==> CandleOfElement(items, i, name, c[i])
  {
    var n := |items| - 1;
    forall i | 0 <= i < n
      ensures CandleOfElement(items, i, name, c[i])
    {
      assert c[i] == c[..n][i] == c0[i];
      CandleOfElementPrefix(items, i, n, name, c0[i]);
    }
  }

  /** The last element is processed in the state of the pass over the others, with the axis column then in use. */
  lemma KlineLastStep(p: Parsers, items: seq<Value>, xAxisName: string)
    requires items != []
    requires KlineBuild(p, items[..|items| - 1], xAxisName).Ok?
    ensures var st := KlineBuild(p, items[..|items| - 1], xAxisName).value;
      && KlineBuild(p, items, xAxisName) == KlineRow(p, st, items[|items| - 1])
      && st.xAxisName == AxisNameBefore(items, |items| - 1, xAxisName)
  {
  }

  /** What element i yields depends only on the elements up to i. */
  lemma CandleOfElementPrefix(items: seq<Value>, i: nat, n: nat, name: string, d: Datum)
    requires i < n <= |items|
    requires CandleOfElement(items[..n], i, name, d)
    ensures CandleOfElement(items, i, name, d)
  {
    assert items[..n][..i] == items[..i];
    assert items[..n][i] == items[i];
  }

  /** Element j fails in the pass: judged with the axis column in use when it is reached. */
  predicate KlineElementFails(items: seq<Value>, j: nat, name: string)
    requires j < |items|
  {
    FailsUnder(items[j], AxisNameBefore(items, j, name))
  }

  /** Some element fails in the pass. */
  predicate SomeElementFails(items: seq<Value>, name: string)
  {
    exists j :: 0 <= j < |items| && KlineElementFails(items, j, name)
  }

  /** Element j is the first failing one. */
  predicate FirstFailure(items: seq<Value>, j: nat, name: string)
  {
    && j < |items|
    && KlineElementFails(items, j, name)
    && forall i :: 0 <= i < j ==> !KlineElementFails(items, i, name)
  }

  /** Whether an element fails depends only on the elements up to it. */
  lemma ElementFailsPrefix(items: seq<Value>, n: nat, name: string)
    requires n <= |items|
    ensures forall i :: 0 <= i < n ==> (KlineElementFails(items[..n], i, name) <==> KlineElementFails(items, i, name))
  {
    forall i | 0 <= i < n
      ensures KlineElementFails(items[..n], i, name) <==> KlineElementFails(items, i, name)
    {
      assert items[..n][..i] == items[..i];
      assert items[..n][i] == items[i];
    }
  }

  /**
   * The kline pass fails exactly when some element fails: a bare value or
   * text, a sub-list whose length is not 4 or that holds a non-number, or a
   * record whose First/Last/Min/Max column (other than the axis column then in
   * use) holds a non-number; the error is the one the first such element gives.
   */
  lemma {:induction false} KlineErrorIff(p: Parsers, items: seq<Value>, name: string)
    ensures KlineBuild(p, items, name).Err? <==> SomeElementFails(items, name)
    ensures KlineBuild(p, items, name).Err? ==>
      exists j: nat :: FirstFailure(items, j, name) && KlineBuild(p, items, name).error == ErrorOf(items[j])
  {
    if items != [] {
      var n := |items| - 1;
      var front := items[..n];
      KlineErrorIff(p, front, name);
      if KlineBuild(p, front, name).Err? {
        var j: nat :| FirstFailure(front, j, name) && KlineBuild(p, front, name).error == ErrorOf(front[j]);
        FirstFailurePrefix(items, n, j, name);
      } else {
        KlineLastStep(p, items, name);
        KlineLastDecides(items, name);
      }
    }
  }

  /** The first failure among the first n elements is the first failure of the whole input. */
  lemma FirstFailurePrefix(items: seq<Value>, n: nat, j: nat, name: string)
    requires n <= |items| && FirstFailure(items[..n], j, name)
    ensures FirstFailure(items, j, name) && items[j] == items[..n][j]
  {
    ElementFailsPrefix(items, n, name);
  }

  /** When no element before the last fails, the last one decides, and is then the first failure. */
  lemma KlineLastDecides(items: seq<Value>, name: string)
    requires items != [] && !SomeElementFails(items[..|items| - 1], name)
    ensures SomeElementFails(items, name) <==> KlineElementFails(items, |items| - 1, name)
    ensures KlineElementFails(items, |items| - 1, name) ==> FirstFailure(items, |items| - 1, name)
  {
    var n := |items| - 1;
    ElementFailsPrefix(items, n, name);
    assert forall j :: 0 <= j < n ==> !KlineElementFails(items[..n], j, name);
  }
}
