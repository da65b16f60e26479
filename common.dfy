/**
 * The helpers every chart command shares (commands/common.go): the reserved
 * series names, the theme list, the flag getters, number conversion, the
 * axis-value format cascade, the input dispatch and the series table that
 * `getSeries` fills on demand.
 */
module Common {
  import opened Wrappers
  import opened Nu

  /** Name of the series that bare numbers go to. */
  const DefaultSeries: string := "Items"

  /** Reserved name meaning "no axis column: use an integer index axis". */
  const XAxisSeries: string := "__x_axis__"

  /** The colour themes a chart may use. */
  const Themes: seq<string> := [
    "chalk", "essos", "infographic", "macarons", "purple-passion", "roma",
    "romantic", "shine", "vintage", "walden", "westeros", "wonderland"
  ]

  /** The charting library's westeros theme, the fallback. */
  const ThemeWesteros: string := "westeros"

  /**
   * The error exits of the core, one per kind of error. Messages that differ
   * only by a command prefix or a leading digit share one value.
   */
  datatype Error =
    | UnsupportedInputType    // handleCommandInput: reader or unknown input
    | UnsupportedValueType    // plotX: element or input of an unsupported kind
    | IncompatibleType        // ValueToFloat64 on a non-number
    | InvalidArrayValues      // convertValueArray: a sub-list element is not a number
    | InvalidColumnValues     // plotKline: First/Last/Min/Max holds a non-number
    | SubListLength           // plotKline: a sub-list does not have 4 elements

  // ---------------------------------------------------------------------------
  // Flags

  /** The value of a flag as the plugin runtime delivers it. */
  datatype FlagValue =
    | FString(s: string)
    | FCellPath(path: string)   // the cell path, already rendered by its String() method
    | FInt(n: int)
    | FBool(b: bool)

  /** Flags given on the call; a flag that was not given is absent. */
  type Flags = map<string, FlagValue>

  /** getStringFlag; the type assertion `.(string)` panics on any other kind, hence the requires. */
  function GetStringFlag(flags: Flags, name: string, deflt: string): (r: string)
    requires name in flags ==> flags[name].FString?
    ensures name !in flags ==> r == deflt
    ensures name in flags ==> r == flags[name].s
  {
    if name in flags then flags[name].s else deflt
  }

  /**
   * getStringFlag as written, on a flag of any kind: None stands for the
   * panic of its `.(string)` type assertion on a value of another kind.
   */
  function StringFlagAsWritten(flags: Flags, name: string, deflt: string): (r: Option<string>)
    ensures r.None? <==> name in flags && !flags[name].FString?
    ensures r.Some? ==> r.value == GetStringFlag(flags, name, deflt)
  {
    if name in flags && !flags[name].FString? then None else Some(GetStringFlag(flags, name, deflt))
  }

  /**
   * The --xaxis flag that bar, box plot and kline declare is a cell path.
   * Read as text, as the box plot and kline commands do, a given column such
   * as `--xaxis Date` panics; read as a cell path, as the bar command does, it
   * names the column.
   */
  lemma XAxisCellPathReadAsText(column: string)
    ensures StringFlagAsWritten(map["xaxis" := FCellPath(column)], "xaxis", XAxisSeries).None?
    ensures GetCellPathFlag(map["xaxis" := FCellPath(column)], "xaxis", XAxisSeries) == column
  {
  }

  /** getCellPathFlag: the rendered cell path, or the default. */
  function GetCellPathFlag(flags: Flags, name: string, deflt: string): (r: string)
    requires name in flags ==> flags[name].FCellPath?
    ensures name !in flags ==> r == deflt
    ensures name in flags ==> r == flags[name].path
  {
    if name in flags then flags[name].path else deflt
  }

  /** getIntFlag. */
  function GetIntFlag(flags: Flags, name: string, deflt: int): (r: int)
    requires name in flags ==> flags[name].FInt?
    ensures name !in flags ==> r == deflt
    ensures name in flags ==> r == flags[name].n
  {
    if name in flags then flags[name].n else deflt
  }

  /** getBoolFlag: an absent flag reads as false. */
  function GetBoolFlag(flags: Flags, name: string): (r: bool)
    requires name in flags ==> flags[name].FBool?
    ensures r <==> name in flags && flags[name].b
  {
    if name in flags then flags[name].b else false
  }

  // ---------------------------------------------------------------------------
  // Theme

  /** The theme enabled for a requested colour theme. */
  function ChooseTheme(colorTheme: string): (theme: string)
    ensures theme in Themes
    ensures colorTheme in Themes ==> theme == colorTheme
    ensures colorTheme !in Themes ==> theme == ThemeWesteros
  {
    if colorTheme in Themes then colorTheme else ThemeWesteros
  }

  /** The theme part of buildGlobalChartOptions: the color-theme flag, defaulting to westeros. */
  function GlobalTheme(flags: Flags): (theme: string)
    requires "color-theme" in flags ==> flags["color-theme"].FString?
    ensures theme in Themes
    ensures "color-theme" in flags && flags["color-theme"].s in Themes ==> theme == flags["color-theme"].s
    ensures "color-theme" !in flags || flags["color-theme"].s !in Themes ==> theme == ThemeWesteros
  {
    ChooseTheme(GetStringFlag(flags, "color-theme", ThemeWesteros))
  }

  // ---------------------------------------------------------------------------
  // Numbers

  /** ValueToFloat64: int64 is converted, float64 returned as is, anything else is an error. */
  function ValueToFloat64(v: Value): (r: Result<real, Error>)
    ensures r.Ok? <==> IsNumber(v)
    ensures v.VInt? ==> r == Ok(v.i as real)
    ensures v.VFloat? ==> r == Ok(v.f)
    ensures r.Err? ==> r.error == IncompatibleType
  {
    match v
    case VInt(i) => Ok(i as real)
    case VFloat(f) => Ok(f)
    case _ => Err(IncompatibleType)
  }

  // ---------------------------------------------------------------------------
  // Axis values

  /** A parser of one text format; None when the text does not match it. */
  type DateParser = string -> Option<Time>

  /** The external parsers matchXValue calls; only the order in which they are tried is modelled. */
  datatype Parsers = Parsers(
    iso8601: DateParser,            // iso8601.ParseString
    rfc3339: DateParser,            // time.Parse(time.RFC3339, _)
    isoOffset: DateParser,          // time.Parse("2006-01-02 15:04:05 -07:00", _)
    isoLocal: DateParser,           // time.ParseInLocation("2006-01-02 15:04:05", _, time.Local)
    isoDate: DateParser,            // time.ParseInLocation("2006-01-02", _, time.Local)
    float: string -> Option<real>)  // strconv.ParseFloat(_, 64)

  /** What matchXValue returns: the value itself (possibly a parsed float), or a parsed instant. */
  datatype AxisValue = Plain(v: Value) | Date(t: Time)

  /** One data point of a series, as the chart library's data structs hold it. */
  datatype Datum =
    | Data(value: AxisValue)                  // BarData, BoxPlotData, LineData, KlineData with an axis value
    | Slice(name: string, value: AxisValue)   // PieData with a Name
    | Candle(values: seq<real>)               // KlineData with [First, Last, Min, Max]

  /** The date formats of matchXValue in the order it tries them. */
  function DateParsers(p: Parsers): seq<DateParser>
  {
    [p.iso8601, p.rfc3339, p.isoOffset, p.isoLocal, p.isoDate]
  }

  /** Reference definition of "the first format in the list that accepts s". */
  function FirstDate(fs: seq<DateParser>, s: string): (r: Option<Time>)
    ensures r.None? <==> forall i :: 0 <= i < |fs| ==> fs[i](s).None?
    ensures r.Some? ==> exists i :: 0 <= i < |fs| && fs[i](s) == r && forall j :: 0 <= j < i ==> fs[j](s).None?
  {
    if fs == [] then None
    else if fs[0](s).Some? then fs[0](s)
    else
      var r := FirstDate(fs[1..], s);
      assert forall i :: 1 <= i < |fs| ==> fs[i] == fs[1..][i - 1];
      r
  }

  /**
   * matchXValue: a string becomes the instant of the first date format that
   * accepts it, else the float it spells, else stays as it is; any other value
   * is returned unchanged.
   */
  function MatchXValue(p: Parsers, v: Value): (r: AxisValue)
    ensures !v.VStr? ==> r == Plain(v)
    ensures v.VStr? && FirstDate(DateParsers(p), v.s).Some? ==> r == Date(FirstDate(DateParsers(p), v.s).value)
    ensures v.VStr? && FirstDate(DateParsers(p), v.s).None? && p.float(v.s).Some? ==> r == Plain(VFloat(p.float(v.s).value))
    ensures r == Plain(v) <==> !v.VStr? || (FirstDate(DateParsers(p), v.s).None? && p.float(v.s).None?)
  {
    match v
    case VStr(s) =>
      FirstDateCascade(p, s);
      if p.iso8601(s).Some? then Date(p.iso8601(s).value)
      else if p.rfc3339(s).Some? then Date(p.rfc3339(s).value)
      else if p.isoOffset(s).Some? then Date(p.isoOffset(s).value)
      else if p.isoLocal(s).Some? then Date(p.isoLocal(s).value)
      else if p.isoDate(s).Some? then Date(p.isoDate(s).value)
      else if p.float(s).Some? then Plain(VFloat(p.float(s).value))
      else Plain(v)
    case _ => Plain(v)
  }

  /** FirstDate over the five formats of matchXValue, unrolled. */
  lemma FirstDateCascade(p: Parsers, s: string)
    ensures FirstDate(DateParsers(p), s) ==
      if p.iso8601(s).Some? then p.iso8601(s)
      else if p.rfc3339(s).Some? then p.rfc3339(s)
      else if p.isoOffset(s).Some? then p.isoOffset(s)
      else if p.isoLocal(s).Some? then p.isoLocal(s)
      else p.isoDate(s)
  {
    var fs := DateParsers(p);
    var f1, f2, f3, f4 := fs[1..], fs[2..], fs[3..], fs[4..];
    assert f4[1..] == [];
    assert FirstDate(f4, s) == p.isoDate(s);
    assert f3[1..] == f4;
    assert FirstDate(f3, s) == if p.isoLocal(s).Some? then p.isoLocal(s) else p.isoDate(s);
    assert f2[1..] == f3;
    assert FirstDate(f2, s) == if p.isoOffset(s).Some? then p.isoOffset(s) else FirstDate(f3, s);
    assert f1[1..] == f2;
    assert FirstDate(f1, s) == if p.rfc3339(s).Some? then p.rfc3339(s) else FirstDate(f2, s);
    assert fs[1..] == f1;
    assert FirstDate(fs, s) == if p.iso8601(s).Some? then p.iso8601(s) else FirstDate(f1, s);
  }

  // ---------------------------------------------------------------------------
  // Heuristic axis column

  /** The column names autoSetXaxis looks for, compared in lower case. */
  const AxisCandidates: seq<string> := ["timestamp", "ts", "date", "time", "datetime", "nr", "id"]

  function LowerChar(c: char): char
  {
    if 'A' <= c <= 'Z' then (c as int + 32) as char else c
  }

  function ToLower(s: string): string
  {
    seq(|s|, i requires 0 <= i < |s| => LowerChar(s[i]))
  }

  predicate IsAxisCandidate(k: string)
  {
    ToLower(k) in AxisCandidates
  }

  /**
   * autoSetXaxis: a user-given axis name is kept; otherwise some key of the
   * record that names a likely axis column is chosen (which one follows map
   * iteration), or XAxisSeries when there is none.
   */
  method AutoSetXaxis(rec: map<string, Value>, xAxisName: string) returns (name: string)
    ensures xAxisName != XAxisSeries ==> name == xAxisName
    ensures xAxisName == XAxisSeries && name != XAxisSeries ==> name in rec && IsAxisCandidate(name)
    ensures xAxisName == XAxisSeries ==> (name == XAxisSeries <==> forall k :: k in rec ==> !IsAxisCandidate(k))
  {
    if xAxisName != XAxisSeries {
      return xAxisName;
    }
    assert !IsAxisCandidate(XAxisSeries) by {
      assert ToLower(XAxisSeries) == XAxisSeries;
    }
    var keys := rec.Keys;
    while keys != {}
      invariant keys <= rec.Keys
      invariant forall k :: k in rec && k !in keys ==> !IsAxisCandidate(k)
      decreases keys
    {
      var k :| k in keys;
      if IsAxisCandidate(k) {
        return k;
      }
      keys := keys - {k};
    }
    return xAxisName;
  }

  // ---------------------------------------------------------------------------
  // Input dispatch

  /** The forms in which the plugin runtime hands input to a command. */
  datatype CallInput =
    | NoInput                       // nil
    | Single(value: Value)          // nu.Value
    | Stream(values: seq<Value>)    // <-chan nu.Value, already delivered in full
    | Reader                        // io.Reader
    | OtherInput

  /** What handleCommandInput does: return at once, call the plot function once with an argument, or fail. */
  datatype Dispatch = Done | Plot(arg: Value) | Failed(error: Error)

  /** handleCommandInput: a stream is collected in arrival order and passed as one list. */
  method HandleCommandInput(input: CallInput) returns (d: Dispatch)
    ensures input.NoInput? ==> d == Done
    ensures input.Single? ==> d == Plot(input.value)
    ensures input.Stream? ==> d == Plot(VList(input.values))
    ensures input.Reader? || input.OtherInput? ==> d == Failed(UnsupportedInputType)
  {
    match input {
      case NoInput =>
        d := Done;
      case Single(v) =>
        d := Plot(v);
      case Stream(vs) =>
        var inValues: seq<Value> := [];
        var i := 0;
        while i < |vs|
          invariant 0 <= i <= |vs|
          invariant inValues == vs[..i]
        {
          inValues := inValues + [vs[i]];
          i := i + 1;
        }
        assert vs[..|vs|] == vs;
        d := Plot(VList(inValues));
      case Reader =>
        d := Failed(UnsupportedInputType);
      case OtherInput =>
        d := Failed(UnsupportedInputType);
    }
  }

  // ---------------------------------------------------------------------------
  // Series table

  /** Series name to the data points collected so far. */
  type Series = map<string, seq<Datum>>

  /** A series as Go reads it from the map: a missing name reads as the empty list. */
  function Lookup(t: Series, name: string): seq<Datum>
  {
    if name in t then t[name] else []
  }

  /** `items := getSeries(series, name); series[name] = append(items, d)`. */
  function Append(t: Series, name: string, d: Datum): Series
  {
    t[name := Lookup(t, name) + [d]]
  }

  /** The fields of a record that are numbers and not the skipped (axis) column. */
  function NumericFields(rec: map<string, Value>, skip: string): set<string>
  {
    set k | k in rec && k != skip && IsNumber(rec[k])
  }

  /** The series after the numeric fields among `done` have each been appended to the series of their key. */
  function AddFieldsOf(t: Series, rec: map<string, Value>, skip: string, done: set<string>): Series
  {
    map k | k in t.Keys + (NumericFields(rec, skip) * done) ::
      if k in NumericFields(rec, skip) * done then Lookup(t, k) + [Data(Plain(rec[k]))] else t[k]
  }

  /**
   * One record's contribution: every numeric field whose key is not the axis
   * column gets one more point in the series of its key; nothing else changes.
   */
  function AddFields(t: Series, rec: map<string, Value>, skip: string): (r: Series)
    ensures r.Keys == t.Keys + NumericFields(rec, skip)
    ensures forall k :: k in NumericFields(rec, skip) ==> r[k] == Lookup(t, k) + [Data(Plain(rec[k]))]
    ensures forall k :: k in t && k !in NumericFields(rec, skip) ==> r[k] == t[k]
  {
    AddFieldsOf(t, rec, skip, rec.Keys)
  }

  lemma AddFieldsOfNone(t: Series, rec: map<string, Value>, skip: string)
    ensures AddFieldsOf(t, rec, skip, {}) == t
  {
  }

  lemma AddFieldsOfStep(t: Series, rec: map<string, Value>, skip: string, done: set<string>, k: string)
    requires k in rec && k !in done
    ensures k in NumericFields(rec, skip) ==>
      AddFieldsOf(t, rec, skip, done + {k}) == Append(AddFieldsOf(t, rec, skip, done), k, Data(Plain(rec[k])))
    ensures k !in NumericFields(rec, skip) ==>
      AddFieldsOf(t, rec, skip, done + {k}) == AddFieldsOf(t, rec, skip, done)
  {
    var before := AddFieldsOf(t, rec, skip, done);
    var after := AddFieldsOf(t, rec, skip, done + {k});
    assert Lookup(before, k) == Lookup(t, k);
    if k in NumericFields(rec, skip) {
      var appended := Append(before, k, Data(Plain(rec[k])));
      assert after.Keys == appended.Keys;
      forall x | x in after ensures after[x] == appended[x] {
      }
    } else {
      assert after.Keys == before.Keys;
      forall x | x in after ensures after[x] == before[x] {
      }
    }
  }

  /** The `series` map of a chart command; `getSeries` creates missing entries in place. */
  class SeriesTable {
    var entries: Series

    constructor ()
      ensures entries == map[]
    {
      entries := map[];
    }

    /** getSeries: returns the named series, first inserting an empty one if it is missing. */
    method GetSeries(name: string) returns (s: seq<Datum>)
      modifies this
      ensures name in entries
      ensures old(name in entries) ==> entries == old(entries) && s == old(entries[name])
      ensures old(name !in entries) ==> entries == old(entries)[name := []] && s == []
    {
      if name in entries {
        s := entries[name];
      } else {
        entries := entries[name := []];
        s := entries[name];
      }
    }

    /** `items := getSeries(series, name); series[name] = append(items, d)`. */
    method AppendTo(name: string, d: Datum)
      modifies this
      ensures entries == Append(old(entries), name, d)
    {
      var items := GetSeries(name);
      entries := entries[name := items + [d]];
    }

    /** The loop over one record's fields, in map iteration order. */
    method AppendFields(rec: map<string, Value>, skip: string)
      modifies this
      ensures entries == AddFields(old(entries), rec, skip)
    {
      ghost var t0 := entries;
      AddFieldsOfNone(t0, rec, skip);
      var keys := rec.Keys;
      while keys != {}
        invariant keys <= rec.Keys
        invariant entries == AddFieldsOf(t0, rec, skip, rec.Keys - keys)
        decreases keys
      {
        var k :| k in keys;
        var v := rec[k];
        AddFieldsOfStep(t0, rec, skip, rec.Keys - keys, k);
        assert rec.Keys - (keys - {k}) == (rec.Keys - keys) + {k};
        if k != skip {
          if v.VInt? || v.VFloat? {
            AppendTo(k, Data(Plain(v)));
          }
        }
        keys := keys - {k};
      }
    }
  }
}
