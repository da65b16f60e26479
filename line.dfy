/**
 * The line command (commands/line.go).
 * It carries its own copies of the constants, the theme choice and
 * matchXValue, and handles the axis differently from the other commands:
 * captured axis values go to the reserved XAxisSeries slot, a record without
 * the column switches the boolean `xAxisOk` off, and the axis column itself
 * is never reassigned, so it is skipped in every record.
 */
module Line {
  import opened Wrappers
  import opened Nu
  import Common
  import Table

  const DefaultSeries: string := "Items"
  const XAxisSeries: string := "__x_axis__"
  const Themes: seq<string> := [
    "chalk", "essos", "infographic", "macarons", "purple-passion", "roma",
    "romantic", "shine", "vintage", "walden", "westeros", "wonderland"
  ]

  /** The theme selection in plotLine: a known theme name is used, anything else falls back to westeros. */
  function ChooseTheme(colorTheme: string): (theme: string)
    ensures theme in Themes
    ensures colorTheme in Themes ==> theme == colorTheme
    ensures colorTheme !in Themes ==> theme == Common.ThemeWesteros
  {
    if colorTheme in Themes then colorTheme else Common.ThemeWesteros
  }

  /** The copies in this file agree with the shared definitions. */
  lemma CopiesAgree(colorTheme: string)
    ensures DefaultSeries == Common.DefaultSeries && XAxisSeries == Common.XAxisSeries
    ensures ChooseTheme(colorTheme) == Common.ChooseTheme(colorTheme)
  {
  }

  /**
   * This file's matchXValue: RFC 3339, then "2006-01-02 15:04:05 -07:00",
   * then a float, else the value unchanged.
   */
  function MatchXValue(p: Common.Parsers, v: Value): (r: Common.Datum)
    ensures !v.VStr? ==> r == Common.Data(Common.Plain(v))
    ensures v.VStr? && p.rfc3339(v.s).Some? ==> r == Common.Data(Common.Date(p.rfc3339(v.s).value))
    ensures v.VStr? && p.rfc3339(v.s).None? && p.isoOffset(v.s).Some? ==> r == Common.Data(Common.Date(p.isoOffset(v.s).value))
    ensures v.VStr? && p.rfc3339(v.s).None? && p.isoOffset(v.s).None? && p.float(v.s).Some? ==>
      r == Common.Data(Common.Plain(VFloat(p.float(v.s).value)))
    ensures r == Common.Data(Common.Plain(v)) <==>
      !v.VStr? || (p.rfc3339(v.s).None? && p.isoOffset(v.s).None? && p.float(v.s).None?)
  {
    match v
    case VStr(s) =>
      if p.rfc3339(s).Some? then Common.Data(Common.Date(p.rfc3339(s).value))
      else if p.isoOffset(s).Some? then Common.Data(Common.Date(p.isoOffset(s).value))
      else if p.float(s).Some? then Common.Data(Common.Plain(VFloat(p.float(s).value)))
      else Common.Data(Common.Plain(v))
    case _ => Common.Data(Common.Plain(v))
  }

  /** On strings none of the three extra formats of the shared matchXValue accepts, both versions agree. */
  lemma MatchXValueAgrees(p: Common.Parsers, v: Value)
    requires v.VStr? ==> p.iso8601(v.s).None? && p.isoLocal(v.s).None? && p.isoDate(v.s).None?
    ensures MatchXValue(p, v) == Common.Data(Common.MatchXValue(p, v))
  {
    if v.VStr? {
      Common.FirstDateCascade(p, v.s);
    }
  }

  /** A plain date such as "2024-06-01" is a date for the shared version and stays text here. */
  lemma DateOnlyDiffers(p: Common.Parsers, v: Value)
    requires v.VStr?
    requires p.iso8601(v.s).None? && p.rfc3339(v.s).None? && p.isoOffset(v.s).None? && p.isoLocal(v.s).None?
    requires p.isoDate(v.s).Some? && p.float(v.s).None?
    ensures Common.MatchXValue(p, v) == Common.Date(p.isoDate(v.s).value)
    ensures MatchXValue(p, v) == Common.Data(Common.Plain(v))
  {
    Common.FirstDateCascade(p, v.s);
  }

  // ---------------------------------------------------------------------------
  // The element loop

  /** The loop state of plotLine: the series map and whether the axis column is still in use. */
  datatype LineState = LineState(series: Common.Series, xAxisOk: bool)

  /** What one record puts into the reserved slot while the axis is in use. */
  function LineCaptured(p: Common.Parsers, name: string, v: Value): seq<Common.Datum>
  {
    if v.VRecord? && name in v.fields then [MatchXValue(p, v.fields[name])] else []
  }

  /**
   * One element of the list: a number or a record is accepted, anything else
   * fails; a record without the axis column switches xAxisOk off for good.
   * What it adds to each series is LineRowSeries.
   */
  function LineRow(p: Common.Parsers, xAxisName: string, st: LineState, item: Value): (r: Result<LineState, Common.Error>)
    ensures r.Err? <==> !Table.Supported(item)
    ensures r.Err? ==> r.error == Common.UnsupportedValueType
    ensures r.Ok? ==> (r.value.xAxisOk <==> st.xAxisOk && !(item.VRecord? && xAxisName !in item.fields))
  {
    match item
    case VInt(_) => Ok(LineState(Common.Append(st.series, DefaultSeries, Common.Data(Common.Plain(item))), st.xAxisOk))
    case VFloat(_) => Ok(LineState(Common.Append(st.series, DefaultSeries, Common.Data(Common.Plain(item))), st.xAxisOk))
    case VRecord(rec) =>
      var t := Common.AddFields(st.series, rec, xAxisName);
      if !st.xAxisOk then Ok(LineState(t, false))
      else if xAxisName in rec then Ok(LineState(Common.Append(t, XAxisSeries, MatchXValue(p, rec[xAxisName])), true))
      else Ok(LineState(t, false))
    case _ => Err(Common.UnsupportedValueType)
  }

  /**
   * What one element adds to each series: a number one point to "Items"; a
   * record its numeric field k to series k for every k other than the axis
   * column, the reserved slot and "Items", nothing to the axis column's own
   * series, and, while xAxisOk holds, its matched column value to the slot.
   */
  lemma LineRowSeries(p: Common.Parsers, xAxisName: string, st: LineState, item: Value)
    requires Table.Supported(item)
    ensures IsNumber(item) ==>
      Common.Lookup(LineRow(p, xAxisName, st, item).value.series, DefaultSeries) ==
        Common.Lookup(st.series, DefaultSeries) + [Common.Data(Common.Plain(item))]
    ensures st.xAxisOk && xAxisName != XAxisSeries && Table.FieldData(item, XAxisSeries) == [] ==>
      Common.Lookup(LineRow(p, xAxisName, st, item).value.series, XAxisSeries) ==
        Common.Lookup(st.series, XAxisSeries) + LineCaptured(p, xAxisName, item)
    ensures xAxisName != DefaultSeries && xAxisName != XAxisSeries ==>
      Common.Lookup(LineRow(p, xAxisName, st, item).value.series, xAxisName) == Common.Lookup(st.series, xAxisName)
    ensures forall k :: k != xAxisName && k != DefaultSeries && k != XAxisSeries ==>
      Common.Lookup(LineRow(p, xAxisName, st, item).value.series, k) == Common.Lookup(st.series, k) + Table.FieldData(item, k)
  {
    if item.VRecord? {
      var t := Common.AddFields(st.series, item.fields, xAxisName);
      assert forall k :: k != xAxisName ==> Common.Lookup(t, k) == Common.Lookup(st.series, k) + Table.FieldData(item, k);
    }
  }

  /** Running the loop over `items`, returning at the first error. */
  function LineFold(p: Common.Parsers, xAxisName: string, init: LineState, items: seq<Value>): Result<LineState, Common.Error>
  {
    if items == [] then Ok(init)
    else match LineFold(p, xAxisName, init, items[..|items| - 1])
      case Err(e) => Err(e)
      case Ok(st) => LineRow(p, xAxisName, st, items[|items| - 1])
  }

  /**
   * The whole pass, from an empty series map with the axis in use (the flag is
   * present). It fails, with the unsupported-value error, exactly when some
   * element is neither a number nor a record; xAxisOk survives it exactly when
   * every record has the column.
   */
  function LineBuild(p: Common.Parsers, items: seq<Value>, xAxisName: string): (r: Result<LineState, Common.Error>)
    ensures r.Err? <==> Table.HasUnsupported(items)
    ensures r.Err? ==> r.error == Common.UnsupportedValueType
    ensures r.Ok? ==> (r.value.xAxisOk <==> !Table.MissesColumn(items, xAxisName))
  {
    var init := LineState(map[], true);
    LineFoldErrorIff(p, xAxisName, init, items);
    if LineFold(p, xAxisName, init, items).Ok? then
      LineFoldAxisOk(p, xAxisName, init, items);
      LineFold(p, xAxisName, init, items)
    else LineFold(p, xAxisName, init, items)
  }

  /** The pass over one more element is one more iteration after the pass so far. */
  lemma LineFoldStep(p: Common.Parsers, xAxisName: string, init: LineState, items: seq<Value>, i: nat)
    requires i < |items|
    ensures LineFold(p, xAxisName, init, items[..i + 1]) ==
      match LineFold(p, xAxisName, init, items[..i])
      case Err(e) => Err(e)
      case Ok(st) => LineRow(p, xAxisName, st, items[i])
  {
    assert items[..i + 1][..i] == items[..i];
  }

  /** Once an iteration fails, the whole pass fails with that error. */
  lemma {:induction false} LineErrPersists(p: Common.Parsers, xAxisName: string, init: LineState, items: seq<Value>, i: nat)
    requires i <= |items|
    requires LineFold(p, xAxisName, init, items[..i]).Err?
    ensures LineFold(p, xAxisName, init, items) == LineFold(p, xAxisName, init, items[..i])
  {
    if i < |items| {
      var n := |items| - 1;
      assert items[..n][..i] == items[..i];
      LineErrPersists(p, xAxisName, init, items[..n], i);
    } else {
      assert items[..i] == items;
    }
  }

  lemma {:induction false} LinePrefixOk(p: Common.Parsers, xAxisName: string, init: LineState, items: seq<Value>, i: nat)
    requires i <= |items|
    requires LineFold(p, xAxisName, init, items).Ok?
    ensures LineFold(p, xAxisName, init, items[..i]).Ok?
  {
    if i < |items| {
      var n := |items| - 1;
      assert items[..n][..i] == items[..i];
      LinePrefixOk(p, xAxisName, init, items[..n], i);
    } else {
      assert items[..i] == items;
    }
  }

  // ---------------------------------------------------------------------------
  // Assembly

  /**
   * The chart built from the final state: every series but the reserved slot;
   * the slot as the x axis while xAxisOk holds, else the index range over the
   * length of one of the added series.
   */
  predicate LineAssembled(st: LineState, c: Table.Chart)
  {
    && c.series == st.series - {XAxisSeries}
    && (st.xAxisOk ==> c.xAxis == Table.Categories(Common.Lookup(st.series, XAxisSeries)))
    && (!st.xAxisOk ==>
          c.xAxis.IndexRange? && Table.IsIndexRange(c.xAxis.indices) && Table.IsSomeLength(c.series, |c.xAxis.indices|))
  }

  /**
   * One iteration of plotLine's element loop, done in place on `table`: it
   * has the effect LineRow describes and returns the new xAxisOk, or LineRow's error.
   */
  method ApplyLineRow(p: Common.Parsers, table: Common.SeriesTable, xAxisName: string, xAxisOk: bool, item: Value)
    returns (r: Result<bool, Common.Error>)
    modifies table
    ensures r.Err? ==> LineRow(p, xAxisName, LineState(old(table.entries), xAxisOk), item) == Err(r.error)
    ensures r.Ok? ==> LineRow(p, xAxisName, LineState(old(table.entries), xAxisOk), item) == Ok(LineState(table.entries, r.value))
  {
    match item {
      case VInt(_) =>
        table.AppendTo(DefaultSeries, Common.Data(Common.Plain(item)));
        r := Ok(xAxisOk);
      case VFloat(_) =>
        table.AppendTo(DefaultSeries, Common.Data(Common.Plain(item)));
        r := Ok(xAxisOk);
      case VRecord(rec) =>
        table.AppendFields(rec, xAxisName);
        r := Ok(xAxisOk);
        if xAxisOk {
          if xAxisName in rec {
            table.AppendTo(XAxisSeries, MatchXValue(p, rec[xAxisName]));
          } else {
            r := Ok(false);
          }
        }
      case _ =>
        r := Err(Common.UnsupportedValueType);
    }
  }

  /** plotLine up to the hand-off to the chart library; the --xaxis flag must be given as text. */
  method PlotLine(p: Common.Parsers, input: Value, flags: Common.Flags) returns (r: Result<Table.Chart, Common.Error>)
    requires "xaxis" in flags && flags["xaxis"].FString?
    ensures !input.VList? ==> r == Err(Common.UnsupportedValueType)
    ensures input.VList? && LineBuild(p, input.items, flags["xaxis"].s).Err? ==>
      r == Err(LineBuild(p, input.items, flags["xaxis"].s).error)
    ensures input.VList? && LineBuild(p, input.items, flags["xaxis"].s).Ok? ==>
      r.Ok? && LineAssembled(LineBuild(p, input.items, flags["xaxis"].s).value, r.value)
  {
    var xAxisName := flags["xaxis"].s;
    var xAxisOk := true;
    if !input.VList? {
      return Err(Common.UnsupportedValueType);
    }
    var items := input.items;
    var table := new Common.SeriesTable();
    for i := 0 to |items|
      invariant LineFold(p, xAxisName, LineState(map[], true), items[..i]) == Ok(LineState(table.entries, xAxisOk))
    {
      LineFoldStep(p, xAxisName, LineState(map[], true), items, i);
      var next := ApplyLineRow(p, table, xAxisName, xAxisOk, items[i]);
      if next.Err? {
        LineErrPersists(p, xAxisName, LineState(map[], true), items, i + 1);
        return Err(next.error);
      }
      xAxisOk := next.value;
    }
    assert items[..|items|] == items;
    var st := LineState(table.entries, xAxisOk);
    var added, itemCount := Table.AddSeries(st.series, XAxisSeries);
    if xAxisOk {
      r := Ok(Table.Chart(added, Table.Categories(Common.Lookup(st.series, XAxisSeries))));
    } else {
      var xRange := Table.MakeRange(itemCount);
      r := Ok(Table.Chart(added, Table.IndexRange(xRange)));
    }
  }

  /** nuplotLineHandler: the input dispatch of handleCommandInput, with plotLine as the plot function. */
  method NuplotLineHandler(p: Common.Parsers, input: Common.CallInput, flags: Common.Flags)
    returns (r: Result<Option<Table.Chart>, Common.Error>)
    requires input.Single? || input.Stream? ==> "xaxis" in flags && flags["xaxis"].FString?
    ensures input.NoInput? ==> r == Ok(None)
    ensures input.Reader? || input.OtherInput? ==> r == Err(Common.UnsupportedInputType)
    ensures input.Single? && !input.value.VList? ==> r == Err(Common.UnsupportedValueType)
    ensures input.Stream? || (input.Single? && input.value.VList?) ==>
      var items := if input.Stream? then input.values else input.value.items;
      var b := LineBuild(p, items, flags["xaxis"].s);
      (b.Err? ==> r == Err(b.error)) && (b.Ok? ==> r.Ok? && r.value.Some? && LineAssembled(b.value, r.value.value))
  {
    var d := Common.HandleCommandInput(input);
    match d {
      case Done =>
        r := Ok(None);
      case Failed(e) =>
        r := Err(e);
      case Plot(arg) =>
        var c := PlotLine(p, arg, flags);
        if c.Ok? {
          r := Ok(Some(c.value));
        } else {
          r := Err(c.error);
        }
    }
  }

  // ---------------------------------------------------------------------------
  // Properties

  /** The loop fails exactly when some element is neither a number nor a record, and then with that error. */
  lemma {:induction false} LineFoldErrorIff(p: Common.Parsers, xAxisName: string, init: LineState, items: seq<Value>)
    ensures LineFold(p, xAxisName, init, items).Err? <==> Table.HasUnsupported(items)
    ensures LineFold(p, xAxisName, init, items).Err? ==> LineFold(p, xAxisName, init, items).error == Common.UnsupportedValueType
  {
    if items != [] {
      var n := |items| - 1;
      var front := items[..n];
      LineFoldErrorIff(p, xAxisName, init, front);
      if Table.HasUnsupported(front) {
        var j :| 0 <= j < n && !Table.Supported(front[j]);
        assert items[j] == front[j];
      } else {
        var st := LineFold(p, xAxisName, init, front).value;
        assert LineFold(p, xAxisName, init, items) == LineRow(p, xAxisName, st, items[n]);
        Table.LastDecides(items);
      }
    }
  }



  /** xAxisOk survives the loop exactly when it held at the start and every record has the axis column. */
  lemma {:induction false} LineFoldAxisOk(p: Common.Parsers, xAxisName: string, init: LineState, items: seq<Value>)
    requires LineFold(p, xAxisName, init, items).Ok?
    ensures LineFold(p, xAxisName, init, items).value.xAxisOk <==> init.xAxisOk && !Table.MissesColumn(items, xAxisName)
  {
    if items != [] {
      var n := |items| - 1;
      var front := items[..n];
      LinePrefixOk(p, xAxisName, init, items, n);
      LineFoldAxisOk(p, xAxisName, init, front);
      assert forall j :: 0 <= j < n ==> front[j] == items[j];
      if Table.MissesColumn(items, xAxisName) && !Table.MissesColumn(front, xAxisName) {
        var j :| 0 <= j < |items| && items[j].VRecord? && xAxisName !in items[j].fields;
        assert j == n;
      }
    }
  }

  /** No record has a field named like the reserved slot. */
  predicate NoReservedField(items: seq<Value>)
  {
    forall j :: 0 <= j < |items| && items[j].VRecord? ==> XAxisSeries !in items[j].fields
  }

  /** This file's matched axis values of every record that has the column, in input order. */
  function LineAxisColumn(p: Common.Parsers, items: seq<Value>, name: string): seq<Common.Datum>
  {
    if items == [] then []
    else
      var v := items[|items| - 1];
      LineAxisColumn(p, items[..|items| - 1], name) +
        if v.VRecord? && name in v.fields then [MatchXValue(p, v.fields[name])] else []
  }

  /**
   * While every record has the column, the reserved slot holds the matched
   * column values in input order (no record may itself have a field of that name).
   */
  lemma {:induction false} LineAxisValues(p: Common.Parsers, items: seq<Value>, xAxisName: string)
    requires LineBuild(p, items, xAxisName).Ok?
    requires !Table.MissesColumn(items, xAxisName)
    requires NoReservedField(items)
    ensures Common.Lookup(LineBuild(p, items, xAxisName).value.series, XAxisSeries) == LineAxisColumn(p, items, xAxisName)
  {
    if items != [] {
      var n := |items| - 1;
      var front := items[..n];
      assert forall j :: 0 <= j < n ==> front[j] == items[j];
      LinePrefixOk(p, xAxisName, LineState(map[], true), items, n);
      LineAxisValues(p, front, xAxisName);
      var st := LineBuild(p, front, xAxisName).value;
      assert LineBuild(p, items, xAxisName) == LineRow(p, xAxisName, st, items[n]);
      if items[n].VRecord? {
        assert XAxisSeries !in Common.NumericFields(items[n].fields, xAxisName);
      }
    }
  }

  /** The axis column never becomes a data series, downgrade or not (unlike bar, box plot, pie and kline, where a downgrade charts the column). */
  lemma {:induction false} AxisColumnNeverSeries(p: Common.Parsers, items: seq<Value>, xAxisName: string)
    requires xAxisName != DefaultSeries && xAxisName != XAxisSeries
    requires LineBuild(p, items, xAxisName).Ok?
    ensures xAxisName !in LineBuild(p, items, xAxisName).value.series
  {
    if items != [] {
      var n := |items| - 1;
      var front := items[..n];
      LinePrefixOk(p, xAxisName, LineState(map[], true), items, n);
      AxisColumnNeverSeries(p, front, xAxisName);
      var st := LineBuild(p, front, xAxisName).value;
      assert LineBuild(p, items, xAxisName) == LineRow(p, xAxisName, st, items[n]);
      if items[n].VRecord? {
        assert xAxisName !in Common.NumericFields(items[n].fields, xAxisName);
      }
    }
  }

  /**
   * Every data column becomes its own series, as in the bar pass: the series
   * of a key other than the axis column, the reserved slot and "Items" holds
   * exactly that column's numeric values, in input order.
   */
  lemma {:induction false} LineColumn(p: Common.Parsers, items: seq<Value>, xAxisName: string, k: string)
    requires k != xAxisName && k != XAxisSeries && k != DefaultSeries
    requires LineBuild(p, items, xAxisName).Ok?
    ensures Common.Lookup(LineBuild(p, items, xAxisName).value.series, k) == Table.ColumnData(items, k)
  {
    if items != [] {
      var n := |items| - 1;
      var front := items[..n];
      LinePrefixOk(p, xAxisName, LineState(map[], true), items, n);
      LineColumn(p, front, xAxisName, k);
      var st := LineBuild(p, front, xAxisName).value;
      assert LineBuild(p, items, xAxisName) == LineRow(p, xAxisName, st, items[n]);
      LineRowSeries(p, xAxisName, st, items[n]);
    }
  }

  /** Two tables that agree outside their own axis slots (the reserved slot for line, the column for bar). */
  predicate AgreeOutsideSlots(a: Common.Series, b: Common.Series, name: string)
  {
    a - {XAxisSeries} == b - {name}
  }

  /** Appending to a series other than the two slots keeps the tables in agreement. */
  lemma AppendAgree(a: Common.Series, b: Common.Series, name: string, k: string, d: Common.Datum)
    requires name != XAxisSeries && k != XAxisSeries && k != name
    requires AgreeOutsideSlots(a, b, name)
    ensures AgreeOutsideSlots(Common.Append(a, k, d), Common.Append(b, k, d), name)
  {
    var la, lb := Common.Append(a, k, d) - {XAxisSeries}, Common.Append(b, k, d) - {name};
    assert k in a <==> k in a - {XAxisSeries};
    assert k in b <==> k in b - {name};
    if k in a {
      assert (a - {XAxisSeries})[k] == (b - {name})[k];
    }
    assert Common.Lookup(a, k) == Common.Lookup(b, k);
    forall j ensures j in la <==> j in lb
    {
      if j != XAxisSeries && j != name && j != k {
        assert j in a <==> j in a - {XAxisSeries};
        assert j in b <==> j in b - {name};
      }
    }
    assert la.Keys == lb.Keys;
    forall j | j in la ensures la[j] == lb[j] {
      if j != k {
        assert (a - {XAxisSeries})[j] == (b - {name})[j];
      }
    }
  }

  /** A record's numeric fields keep the tables in agreement. */
  lemma AddFieldsAgree(a: Common.Series, b: Common.Series, rec: map<string, Value>, name: string)
    requires XAxisSeries !in rec && name != XAxisSeries
    requires AgreeOutsideSlots(a, b, name)
    ensures AgreeOutsideSlots(Common.AddFields(a, rec, name), Common.AddFields(b, rec, name), name)
  {
    var fa, fb := Common.AddFields(a, rec, name), Common.AddFields(b, rec, name);
    var la, lb := fa - {XAxisSeries}, fb - {name};
    var nf := Common.NumericFields(rec, name);
    assert name !in a by {
      assert name !in b - {name};
      assert name !in a - {XAxisSeries};
    }
    assert XAxisSeries !in b by {
      assert XAxisSeries !in a - {XAxisSeries};
      assert XAxisSeries !in b - {name};
    }
    assert name !in nf && XAxisSeries !in nf;
    forall k ensures k in la <==> k in lb
    {
      if k != XAxisSeries && k != name {
        assert k in a <==> k in a - {XAxisSeries};
        assert k in b <==> k in b - {name};
      }
    }
    assert la.Keys == lb.Keys;
    forall k | k in la ensures la[k] == lb[k] {
      assert k in a <==> k in a - {XAxisSeries};
      assert k in b <==> k in b - {name};
      if k in a {
        assert (a - {XAxisSeries})[k] == (b - {name})[k];
      }
      assert Common.Lookup(a, k) == Common.Lookup(b, k);
    }
  }

  /** One element, without a downgrade, keeps the line and bar tables in agreement. */
  lemma SameSeriesStep(p: Common.Parsers, a: LineState, b: Table.BuildState, v: Value, name: string)
    requires name != DefaultSeries && name != XAxisSeries && b.xAxisName == name
    requires Table.Supported(v)
    requires v.VRecord? ==> name in v.fields && XAxisSeries !in v.fields
    requires AgreeOutsideSlots(a.series, b.series, name)
    ensures LineRow(p, name, a, v).Ok? && Table.Row(p, b, v).Ok?
    ensures AgreeOutsideSlots(LineRow(p, name, a, v).value.series, Table.Row(p, b, v).value.series, name)
  {
    match v {
      case VRecord(rec) =>
        AddFieldsAgree(a.series, b.series, rec, name);
        var t := Common.AddFields(a.series, rec, name);
        var u := Common.AddFields(b.series, rec, name);
        assert Common.Append(t, XAxisSeries, MatchXValue(p, rec[name])) - {XAxisSeries} == t - {XAxisSeries};
        assert Common.Append(u, name, Common.Data(Common.MatchXValue(p, rec[name]))) - {name} == u - {name};
      case VInt(_) =>
        AppendAgree(a.series, b.series, name, DefaultSeries, Common.Data(Common.Plain(v)));
      case VFloat(_) =>
        AppendAgree(a.series, b.series, name, DefaultSeries, Common.Data(Common.Plain(v)));
    }
  }

  /**
   * Without a downgrade, the line command and the bar command plot the same
   * data series: the line pass keeps its axis values in the reserved slot,
   * the bar pass in the column's own series, and each assembly drops its own.
   */
  lemma {:induction false} SameSeriesAsBar(p: Common.Parsers, items: seq<Value>, xAxisName: string)
    requires xAxisName != DefaultSeries && xAxisName != XAxisSeries
    requires NoReservedField(items) && !Table.MissesColumn(items, xAxisName)
    requires LineBuild(p, items, xAxisName).Ok?
    ensures Table.Build(p, items, xAxisName).Ok?
    ensures LineBuild(p, items, xAxisName).value.series - {XAxisSeries} ==
      Table.Build(p, items, xAxisName).value.series - {xAxisName}
  {
    if items != [] {
      var n := |items| - 1;
      var front := items[..n];
      assert forall j :: 0 <= j < n ==> front[j] == items[j];
      LinePrefixOk(p, xAxisName, LineState(map[], true), items, n);
      SameSeriesAsBar(p, front, xAxisName);
      var a := LineBuild(p, front, xAxisName).value;
      var b := Table.Build(p, front, xAxisName).value;
      assert LineBuild(p, items, xAxisName) == LineRow(p, xAxisName, a, items[n]);
      assert Table.Build(p, items, xAxisName) == Table.Row(p, b, items[n]);
      assert Table.Supported(items[n]);
      SameSeriesStep(p, a, b, items[n], xAxisName);
    }
  }
}
