/** The Streamlit dashboard: the dates of the open rows, lined up with the
    predictions the API returns, and the chart of one store's scenarios. */
module Dashboard {
  import opened Values
  import opened Tables
  import opened Frames
  import opened Rossmann
  import opened Handler

  /** A pandas Series: each value with its index label. */
  type Series = seq<(int, Value)>

  // ---------------------------------------------------------------------
  // get_date_filtered

  /** The dates whose flag is 1, labelled with their row positions counted
      from base. */
  function OpenDates(dates: seq<Value>, flags: seq<Value>, base: int): (r: Series)
    requires |dates| == |flags|
    ensures |r| == CountEq(flags, 1)
  {
    if dates == [] then []
    else (if NumEquals(flags[0], 1) then [(base, dates[0])] else []) + OpenDates(dates[1..], flags[1..], base + 1)
  }

  /** Every entry of s is the date of an open row of dates, labelled with
      that row's position counted from base. */
  predicate LabelledOpenRows(s: Series, dates: seq<Value>, flags: seq<Value>, base: int)
    requires |dates| == |flags|
  {
    forall j :: 0 <= j < |s| ==> base <= s[j].0 < base + |dates| && NumEquals(flags[s[j].0 - base], 1) && s[j].1 == dates[s[j].0 - base]
  }

  predicate IncreasingLabels(s: Series) {
    forall j, k :: 0 <= j < k < |s| ==> s[j].0 < s[k].0
  }

  lemma SeriesValuesConcat(a: Series, b: Series)
    ensures PairValues(a + b) == PairValues(a) + PairValues(b)
  {
  }

  /** The series' values are the dates of the open rows, in row order. */
  lemma {:induction false} OpenDatesValues(dates: seq<Value>, flags: seq<Value>, base: int)
    requires |dates| == |flags|
    ensures PairValues(OpenDates(dates, flags, base)) == KeepBy(dates, flags, 1)
  {
    if dates != [] {
      var head := if NumEquals(flags[0], 1) then [(base, dates[0])] else [];
      var rest := OpenDates(dates[1..], flags[1..], base + 1);
      assert OpenDates(dates, flags, base) == head + rest;
      OpenDatesValues(dates[1..], flags[1..], base + 1);
      SeriesValuesConcat(head, rest);
      assert PairValues(head) == if NumEquals(flags[0], 1) then [dates[0]] else [];
    }
  }

  lemma ConsLabels(s: Series, rest: Series, dates: seq<Value>, flags: seq<Value>, base: int)
    requires |dates| == |flags| && dates != []
    requires s == (if NumEquals(flags[0], 1) then [(base, dates[0])] else []) + rest
    requires LabelledOpenRows(rest, dates[1..], flags[1..], base + 1)
    ensures LabelledOpenRows(s, dates, flags, base)
  {
    var h := if NumEquals(flags[0], 1) then 1 else 0;
    forall j | 0 <= j < |s|
      ensures base <= s[j].0 < base + |dates| && NumEquals(flags[s[j].0 - base], 1) && s[j].1 == dates[s[j].0 - base]
    {
      if j >= h {
        assert s[j] == rest[j - h];
        var l := rest[j - h].0;
        assert flags[1..][l - (base + 1)] == flags[l - base];
        assert dates[1..][l - (base + 1)] == dates[l - base];
      }
    }
  }

  /** Each entry is an open row's date under that row's position. */
  lemma {:induction false} OpenDatesLabels(dates: seq<Value>, flags: seq<Value>, base: int)
    requires |dates| == |flags|
    ensures LabelledOpenRows(OpenDates(dates, flags, base), dates, flags, base)
  {
    if dates != [] {
      OpenDatesLabels(dates[1..], flags[1..], base + 1);
      ConsLabels(OpenDates(dates, flags, base), OpenDates(dates[1..], flags[1..], base + 1), dates, flags, base);
    }
  }

  lemma ConsIncreasing(s: Series, rest: Series, dates: seq<Value>, flags: seq<Value>, base: int)
    requires |dates| == |flags| && dates != []
    requires s == (if NumEquals(flags[0], 1) then [(base, dates[0])] else []) + rest
    requires LabelledOpenRows(rest, dates[1..], flags[1..], base + 1) && IncreasingLabels(rest)
    ensures IncreasingLabels(s)
  {
    var h := if NumEquals(flags[0], 1) then 1 else 0;
    forall j, k | 0 <= j < k < |s|
      ensures s[j].0 < s[k].0
    {
      assert s[k] == rest[k - h];
      if j >= h {
        assert s[j] == rest[j - h];
      }
    }
  }

  /** The labels increase: the series keeps row order. */
  lemma {:induction false} OpenDatesIncreasing(dates: seq<Value>, flags: seq<Value>, base: int)
    requires |dates| == |flags|
    ensures IncreasingLabels(OpenDates(dates, flags, base))
  {
    if dates != [] {
      OpenDatesIncreasing(dates[1..], flags[1..], base + 1);
      OpenDatesLabels(dates[1..], flags[1..], base + 1);
      ConsIncreasing(OpenDates(dates, flags, base), OpenDates(dates[1..], flags[1..], base + 1), dates, flags, base);
    }
  }

  /** Every open row is in the series. */
  lemma {:induction false} OpenDatesComplete(dates: seq<Value>, flags: seq<Value>, base: int, i: int)
    requires |dates| == |flags| && 0 <= i < |flags| && NumEquals(flags[i], 1)
    ensures (base + i, dates[i]) in OpenDates(dates, flags, base)
  {
    var head := if NumEquals(flags[0], 1) then [(base, dates[0])] else [];
    var rest := OpenDates(dates[1..], flags[1..], base + 1);
    assert OpenDates(dates, flags, base) == head + rest;
    if i > 0 {
      OpenDatesComplete(dates[1..], flags[1..], base + 1, i - 1);
      assert dates[1..][i - 1] == dates[i];
    } else {
      assert head == [(base, dates[0])];
    }
  }

  /** `dataframe.loc[dataframe['Open'] == 1, 'Date']` on a frame labelled
      0, 1, 2, ... */
  function GetDateFiltered(t: Table): (r: Result<Series>)
    requires WellFormed(t)
    ensures "Open" !in t.columns ==> r == Err(KeyError("Open"))
    ensures "Open" in t.columns && "Date" !in t.columns ==> r == Err(KeyError("Date"))
    ensures "Open" in t.columns && "Date" in t.columns ==> r.Ok?
  {
    if "Open" !in t.columns then Err(KeyError("Open"))
    else if "Date" !in t.columns then Err(KeyError("Date"))
    else Ok(OpenDates(Column(t, "Date"), Column(t, "Open"), 0))
  }

  /** The series holds, in row order, the date of each row whose `Open` is 1,
      labelled with that row's position; there is one entry per open row. */
  lemma DateFilteredRows(t: Table)
    requires WellFormed(t) && "Open" in t.columns && "Date" in t.columns
    ensures var s := GetDateFiltered(t).value;
      && |s| == CountEq(Column(t, "Open"), 1)
      && PairValues(s) == KeepBy(Column(t, "Date"), Column(t, "Open"), 1)
      && IncreasingLabels(s)
      && (forall i :: 0 <= i < |t.rows| && NumEquals(Column(t, "Open")[i], 1) ==> (i, Column(t, "Date")[i]) in s)
      && (forall j :: 0 <= j < |s| ==> 0 <= s[j].0 < |t.rows| && NumEquals(Column(t, "Open")[s[j].0], 1) && s[j].1 == Column(t, "Date")[s[j].0])
  {
    var dates := Column(t, "Date");
    var flags := Column(t, "Open");
    OpenDatesValues(dates, flags, 0);
    OpenDatesLabels(dates, flags, 0);
    OpenDatesIncreasing(dates, flags, 0);
    forall i | 0 <= i < |t.rows| && NumEquals(flags[i], 1)
      ensures (i, dates[i]) in GetDateFiltered(t).value
    {
      OpenDatesComplete(dates, flags, 0, i);
    }
  }

  // ---------------------------------------------------------------------
  // Attaching the dates: `data_predicted['date'] = filtered_dates`

  /** The value under index label l, or missing when no entry has it. */
  function AtLabel(s: Series, l: int): (v: Value)
    ensures (forall j :: 0 <= j < |s| ==> s[j].0 != l) ==> v == Missing
    ensures (exists j :: 0 <= j < |s| && s[j].0 == l) ==> exists j :: 0 <= j < |s| && s[j].0 == l && v == s[j].1
  {
    if s == [] then Missing
    else if s[0].0 == l then s[0].1
    else
      var v := AtLabel(s[1..], l);
      assert (exists j :: 0 <= j < |s| && s[j].0 == l) ==> exists j :: 0 <= j < |s[1..]| && s[1..][j].0 == l;
      v
  }

  /** As written: assigning a Series aligns it by index label. The frame of
      predictions is labelled 0, 1, 2, ..., the series by the row positions
      of the open rows, so row i gets the date of row i of the loaded data
      when that row was open, and a missing date otherwise. */
  function AttachByLabel(t: Table, s: Series): (r: Table)
    requires Labelled(t)
    ensures Labelled(r) && r.columns == AddLabel(t.columns, "date") && |r.rows| == |t.rows|
    ensures forall i :: 0 <= i < |t.rows| ==> Column(r, "date")[i] == AtLabel(s, i)
  {
    SetColumn(t, "date", seq(|t.rows|, i requires 0 <= i < |t.rows| => AtLabel(s, i)))
  }

  /** As intended: the k-th prediction belongs to the k-th open row, so the
      dates are attached by position (`filtered_dates.values`); a length
      mismatch raises. */
  function Attach(t: Table, s: Series): (r: Result<Table>)
    requires Labelled(t)
    ensures r.Err? <==> |s| != |t.rows|
    ensures r.Err? ==> r.error == LengthMismatch
    ensures r.Ok? ==> Labelled(r.value) && r.value.columns == AddLabel(t.columns, "date") && |r.value.rows| == |t.rows|
    ensures r.Ok? ==> Column(r.value, "date") == PairValues(s)
    ensures r.Ok? ==> forall d :: d in t.columns && d != "date" ==> Column(r.value, d) == Column(t, d)
  {
    if |s| != |t.rows| then Err(LengthMismatch) else Ok(SetColumn(t, "date", PairValues(s)))
  }

  /** The label alignment misplaces dates as soon as a closed row precedes an
      open one: with rows (closed, 2015-08-01) and (open, 2015-08-02), the one
      prediction gets no date by label, and 2015-08-02 by position. */
  lemma LabelAlignmentMisplacesDates()
    ensures var loaded := Table(["Open", "Date"], [[Int(0), Str("2015-08-01")], [Int(1), Str("2015-08-02")]]);
      var predicted := Table(["predicted_sales"], [[Num(5000.0)]]);
      var s := GetDateFiltered(loaded).value;
      && Column(AttachByLabel(predicted, s), "date") == [Missing]
      && Attach(predicted, s).Ok? && Column(Attach(predicted, s).value, "date") == [Str("2015-08-02")]
  {
    var loaded := Table(["Open", "Date"], [[Int(0), Str("2015-08-01")], [Int(1), Str("2015-08-02")]]);
    var predicted := Table(["predicted_sales"], [[Num(5000.0)]]);
    assert Column(loaded, "Open") == [Int(0), Int(1)];
    assert Column(loaded, "Date") == [Str("2015-08-01"), Str("2015-08-02")];
    var s := GetDateFiltered(loaded).value;
    assert s == [(1, Str("2015-08-02"))];
    assert AtLabel(s, 0) == Missing;
  }

  /** With every row open, entry i of the series is row i. */
  lemma {:induction false} AllOpenDates(dates: seq<Value>, flags: seq<Value>, base: int)
    requires |dates| == |flags| && forall i :: 0 <= i < |flags| ==> NumEquals(flags[i], 1)
    ensures var s := OpenDates(dates, flags, base);
      |s| == |dates| && forall i :: 0 <= i < |s| ==> s[i] == (base + i, dates[i])
  {
    if dates != [] {
      assert NumEquals(flags[0], 1);
      assert forall i :: 0 <= i < |flags[1..]| ==> NumEquals(flags[1..][i], 1) by {
        forall i | 0 <= i < |flags[1..]| ensures NumEquals(flags[1..][i], 1) {
          assert flags[1..][i] == flags[i + 1];
        }
      }
      AllOpenDates(dates[1..], flags[1..], base + 1);
      OpenDatesAllOpenHead(dates, flags, base);
      ConsPositions(OpenDates(dates, flags, base), OpenDates(dates[1..], flags[1..], base + 1), dates, base);
    }
  }

  lemma ConsPositions(s: Series, rest: Series, dates: seq<Value>, base: int)
    requires dates != [] && s == [(base, dates[0])] + rest && |rest| == |dates| - 1
    requires forall i :: 0 <= i < |rest| ==> rest[i] == (base + 1 + i, dates[1..][i])
    ensures forall i :: 0 <= i < |s| ==> s[i] == (base + i, dates[i])
  {
    forall i | 0 <= i < |s|
      ensures s[i] == (base + i, dates[i])
    {
      if i > 0 {
        assert s[i] == rest[i - 1];
        assert dates[1..][i - 1] == dates[i];
      }
    }
  }

  lemma OpenDatesAllOpenHead(dates: seq<Value>, flags: seq<Value>, base: int)
    requires |dates| == |flags| && dates != [] && NumEquals(flags[0], 1)
    ensures OpenDates(dates, flags, base) == [(base, dates[0])] + OpenDates(dates[1..], flags[1..], base + 1)
  {
  }

  /** When every loaded row is open, the two alignments agree. */
  lemma AlignmentsAgreeWhenAllOpen(t: Table, dates: seq<Value>, flags: seq<Value>)
    requires Labelled(t) && |dates| == |flags| == |t.rows|
    requires forall i :: 0 <= i < |flags| ==> NumEquals(flags[i], 1)
    ensures Attach(t, OpenDates(dates, flags, 0)) == Ok(AttachByLabel(t, OpenDates(dates, flags, 0)))
  {
    var s := OpenDates(dates, flags, 0);
    AllOpenDates(dates, flags, 0);
    LabelsArePositions(s, |t.rows|);
    assert AttachByLabel(t, s) == SetColumn(t, "date", PairValues(s));
    assert Attach(t, s) == Ok(SetColumn(t, "date", PairValues(s)));
  }

  /** A series labelled 0, 1, 2, ... reads the same by label and by position. */
  lemma LabelsArePositions(s: Series, n: nat)
    requires |s| == n && forall i :: 0 <= i < n ==> s[i].0 == i
    ensures seq(n, i requires 0 <= i < n => AtLabel(s, i)) == PairValues(s)
  {
    forall i | 0 <= i < n
      ensures AtLabel(s, i) == s[i].1
    {
      assert s[i].0 == i;
      var j :| 0 <= j < |s| && s[j].0 == i && AtLabel(s, i) == s[j].1;
      assert s[j].0 == j;
    }
  }

  // ---------------------------------------------------------------------
  // make_request

  /** The API call on the loaded rows: the records go out as JSON and the
      response's records come back as a frame. `r.json()[0]` raises on the
      `{}` reply (no key 0) and on an empty list, and `r.json()` itself
      raises on the error page a server error sends instead of JSON. */
  function MakeRequest(tr: Transformers, nm: Numerics, model: Table -> seq<Value>, loaded: Table): (r: Result<Table>)
    requires Labelled(loaded)
    ensures WellFormedBody(Array(ToRecords(loaded)))
    ensures Respond(tr, nm, model, Array(ToRecords(loaded))).Plain? ==> r == Err(KeyError("0"))
    ensures Respond(tr, nm, model, Array(ToRecords(loaded))).ServerError? ==> r == Err(JsonDecodeError)
    ensures Respond(tr, nm, model, Array(ToRecords(loaded))).Records? ==>
      (r.Ok? <==> |Respond(tr, nm, model, Array(ToRecords(loaded))).table.rows| > 0)
    ensures r.Err? && Respond(tr, nm, model, Array(ToRecords(loaded))).Records? ==> r == Err(IndexError)
    ensures r.Ok? ==> Labelled(r.value) && Respond(tr, nm, model, Array(ToRecords(loaded))) == Records(r.value)
  {
    var body := Array(ToRecords(loaded));
    assert WellFormedBody(body);
    match Respond(tr, nm, model, body)
    case Plain(_, _, _) => Err(KeyError("0"))
    case ServerError(_) => Err(JsonDecodeError)
    case Records(t) =>
      if |t.rows| == 0 then Err(IndexError)
      else
        assert Labelled(t) by {
          RecordsLabelled(tr, nm, model, body);
        }
        ArrayRoundTrip(t);
        Ok(ShapeBody(Array(ToRecords(t))))
  }

  lemma RecordsLabelled(tr: Transformers, nm: Numerics, model: Table -> seq<Value>, b: Body)
    requires WellFormedBody(b) && Respond(tr, nm, model, b).Records?
    ensures Labelled(Respond(tr, nm, model, b).table)
  {
    var raw := ShapeBody(b);
    var c := Clean(tr, raw).table;
    var e := Engineer(c).table;
    var fl := Filter(e).value;
    var p := Prepare(tr, nm, fl).value;
    assert Respond(tr, nm, model, b).table == Predicted(tr, nm, model, p).table;
  }

  /** The predictions line up with the filtered dates: the API keeps exactly
      the rows whose `Open` is 1, in order, so the dates series and the
      returned frame have the same length and attaching by position cannot
      fail. */
  lemma DatesMatchPredictions(tr: Transformers, nm: Numerics, model: Table -> seq<Value>, loaded: Table)
    requires Labelled(loaded) && "Open" in loaded.columns && "Date" in loaded.columns
    requires MakeRequest(tr, nm, model, loaded).Ok?
    ensures MakeRequest(tr, nm, model, loaded).value == Respond(tr, nm, model, Array(ToRecords(loaded))).table
    ensures |GetDateFiltered(loaded).value| == |MakeRequest(tr, nm, model, loaded).value.rows|
    ensures Attach(MakeRequest(tr, nm, model, loaded).value, GetDateFiltered(loaded).value).Ok?
  {
    var body := Array(ToRecords(loaded));
    var out := Respond(tr, nm, model, body).table;
    RecordsLabelled(tr, nm, model, body);
    ArrayRoundTrip(out);
    assert |loaded.rows| > 0;
    ArrayRoundTrip(loaded);
    var k := IndexOf(loaded.columns, "Open");
    RespondRows(tr, nm, model, body, k);
    DateFilteredRows(loaded);
  }

  // ---------------------------------------------------------------------
  // interactive_plot

  datatype Trace = Trace(name: string, x: seq<Value>, y: seq<Value>)

  /** A Plotly figure: its traces in the order they were added. */
  class Figure {
    var traces: seq<Trace>

    constructor ()
      ensures traces == []
    {
      traces := [];
    }

    /** `fig.add_trace(...)`. */
    method AddTrace(t: Trace)
      modifies this
      ensures traces == old(traces) + [t]
    {
      traces := traces + [t];
    }
  }

  const ExpectedName := "<b>Expected Sales</b>"
  const BestName := "<b>Best Scenario</b>"
  const WorstName := "<b>Worst Scenario</b>"

  /** The traces of the selected scenarios, Expected, Best and Worst in
      that order, over the same dates. */
  function ScenarioTraces(scenarios: seq<string>, x: seq<Value>, expected: seq<Value>, best: seq<Value>, worst: seq<Value>): (r: seq<Trace>)
    ensures |r| == (if "Expected Sales" in scenarios then 1 else 0) + (if "Best Scenario" in scenarios then 1 else 0) + (if "Worst Scenario" in scenarios then 1 else 0)
    ensures forall j :: 0 <= j < |r| ==> r[j].x == x
  {
    (if "Expected Sales" in scenarios then [Trace(ExpectedName, x, expected)] else [])
    + (if "Best Scenario" in scenarios then [Trace(BestName, x, best)] else [])
    + (if "Worst Scenario" in scenarios then [Trace(WorstName, x, worst)] else [])
  }

  /** Position of a trace name in the fixed order Expected, Best, Worst. */
  function Rank(name: string): int {
    if name == ExpectedName then 0 else if name == BestName then 1 else if name == WorstName then 2 else 3
  }

  /** The traces keep the order Expected, Best, Worst. */
  lemma ScenarioTracesOrder(scenarios: seq<string>, x: seq<Value>, expected: seq<Value>, best: seq<Value>, worst: seq<Value>)
    ensures var r := ScenarioTraces(scenarios, x, expected, best, worst);
      forall j, k :: 0 <= j < k < |r| ==> Rank(r[j].name) < Rank(r[k].name)
  {
    assert Rank(ExpectedName) == 0 && Rank(BestName) == 1 && Rank(WorstName) == 2;
    var r := ScenarioTraces(scenarios, x, expected, best, worst);
    var e := if "Expected Sales" in scenarios then [Trace(ExpectedName, x, expected)] else [];
    var b := if "Best Scenario" in scenarios then [Trace(BestName, x, best)] else [];
    var w := if "Worst Scenario" in scenarios then [Trace(WorstName, x, worst)] else [];
    assert r == e + b + w;
    forall j, k | 0 <= j < k < |r|
      ensures Rank(r[j].name) < Rank(r[k].name)
    {
      assert j < |e| ==> r[j] == e[0];
      assert |e| <= j < |e| + |b| ==> r[j] == b[0];
      assert |e| + |b| <= k ==> r[k] == w[0];
      assert |e| <= k < |e| + |b| ==> r[k] == b[0];
    }
  }

  /** Each selected scenario has one trace and each trace a selected scenario. */
  lemma ScenarioTracesSelected(scenarios: seq<string>, x: seq<Value>, expected: seq<Value>, best: seq<Value>, worst: seq<Value>)
    ensures var r := ScenarioTraces(scenarios, x, expected, best, worst);
      && ((exists j :: 0 <= j < |r| && r[j] == Trace(ExpectedName, x, expected)) <==> "Expected Sales" in scenarios)
      && ((exists j :: 0 <= j < |r| && r[j] == Trace(BestName, x, best)) <==> "Best Scenario" in scenarios)
      && ((exists j :: 0 <= j < |r| && r[j] == Trace(WorstName, x, worst)) <==> "Worst Scenario" in scenarios)
  {
    var r := ScenarioTraces(scenarios, x, expected, best, worst);
    var e := if "Expected Sales" in scenarios then [Trace(ExpectedName, x, expected)] else [];
    var b := if "Best Scenario" in scenarios then [Trace(BestName, x, best)] else [];
    var w := if "Worst Scenario" in scenarios then [Trace(WorstName, x, worst)] else [];
    assert r == e + b + w;
    assert forall j :: 0 <= j < |r| ==> r[j] in e || r[j] in b || r[j] in w;
    if "Expected Sales" in scenarios {
      assert r[0] == Trace(ExpectedName, x, expected);
    }
    if "Best Scenario" in scenarios {
      assert r[|e|] == Trace(BestName, x, best);
    }
    if "Worst Scenario" in scenarios {
      assert r[|e| + |b|] == Trace(WorstName, x, worst);
    }
  }

  /** What `interactive_plot` computes: the chosen store's rows of the
      predictions with their dates, then None when there are none, and the
      selected traces otherwise. The ± MAE scenarios are the abstract
      functions best and worst of a prediction and the store's MAE. */
  function PlotSpec(t: Table, store: int, dates: Series, scenarios: seq<string>, mae: map<int, real>,
                    best: (Value, real) -> Value, worst: (Value, real) -> Value): (r: Result<Option<seq<Trace>>>)
    requires Labelled(t)
    ensures |dates| == |t.rows| && "store" in t.columns ==>
      (r == Ok(None) <==> CountEq(Column(t, "store"), store) == 0)
    ensures r.Ok? && r.value.Some? ==> |dates| == |t.rows| && "store" in t.columns && store in mae && "predicted_sales" in t.columns
    ensures r.Ok? && r.value.Some? ==> forall j :: 0 <= j < |r.value.value| ==>
      r.value.value[j].x == KeepBy(PairValues(dates), Column(t, "store"), store)
  {
    match Attach(t, dates)
    case Err(e) => Err(e)
    case Ok(t1) =>
      if "store" !in t1.columns then Err(KeyError("store"))
      else
        var k := IndexOf(t1.columns, "store");
        var rows := KeepWhere(t1.rows, k, store);
        KeptSameWidth(t1.rows, k, |t1.columns|, store);
        KeptRowCount(t1, "store", store);
        assert Column(t1, "store") == Column(t, "store");
        if |rows| == 0 then Ok(None)
        else if "predicted_sales" !in t1.columns then Err(KeyError("predicted_sales"))
        else if store !in mae then Err(KeyNotFound(store))
        else
          var kept := Table(t1.columns, rows);
          var pred := Column(kept, "predicted_sales");
          var m := mae[store];
          ColumnOfKept(t1, "store", store, "date");
          Ok(Some(ScenarioTraces(scenarios, Column(kept, "date"), pred,
                                 MapValues(v => best(v, m), pred), MapValues(v => worst(v, m), pred))))
  }

  /** PlotSpec step by step, on the table with its date column attached and
      the chosen store's rows. */
  lemma PlotSpecSteps(t: Table, store: int, dates: Series, scenarios: seq<string>, mae: map<int, real>,
                      best: (Value, real) -> Value, worst: (Value, real) -> Value)
    requires Labelled(t) && |dates| == |t.rows|
    ensures var t1 := SetColumn(t, "date", PairValues(dates));
      "store" !in t1.columns ==> PlotSpec(t, store, dates, scenarios, mae, best, worst) == Err(KeyError("store"))
    ensures var t1 := SetColumn(t, "date", PairValues(dates));
      "store" in t1.columns ==>
        var kept := Table(t1.columns, KeepWhere(t1.rows, IndexOf(t1.columns, "store"), store));
        && WellFormed(kept) && "date" in kept.columns
        && (|kept.rows| == 0 ==> PlotSpec(t, store, dates, scenarios, mae, best, worst) == Ok(None))
        && (|kept.rows| > 0 && "predicted_sales" !in t1.columns ==>
              PlotSpec(t, store, dates, scenarios, mae, best, worst) == Err(KeyError("predicted_sales")))
        && (|kept.rows| > 0 && "predicted_sales" in t1.columns && store !in mae ==>
              PlotSpec(t, store, dates, scenarios, mae, best, worst) == Err(KeyNotFound(store)))
        && (|kept.rows| > 0 && "predicted_sales" in t1.columns && store in mae ==>
              var pred := Column(kept, "predicted_sales");
              var m := mae[store];
              PlotSpec(t, store, dates, scenarios, mae, best, worst)
                == Ok(Some(ScenarioTraces(scenarios, Column(kept, "date"), pred,
                                          MapValues(v => best(v, m), pred), MapValues(v => worst(v, m), pred)))))
  {
    var t1 := SetColumn(t, "date", PairValues(dates));
    assert Attach(t, dates) == Ok(t1);
    if "store" in t1.columns {
      KeptSameWidth(t1.rows, IndexOf(t1.columns, "store"), |t1.columns|, store);
    }
  }

  /** `interactive_plot` on the frame of predictions, which it changes by
      adding the `date` column; the chart is null when the store has no rows. */
  method InteractivePlot(data: Frame, store: int, dates: Series, scenarios: seq<string>, mae: map<int, real>,
                         best: (Value, real) -> Value, worst: (Value, real) -> Value) returns (r: Result<Figure?>)
    requires data.Valid()
    modifies data
    ensures data.Valid()
    ensures Attach(old(data.Contents()), dates).Ok? ==> data.Contents() == Attach(old(data.Contents()), dates).value
    ensures Attach(old(data.Contents()), dates).Err? ==> data.Contents() == old(data.Contents())
    ensures PlotSpec(old(data.Contents()), store, dates, scenarios, mae, best, worst).Err? ==>
      r == Err(PlotSpec(old(data.Contents()), store, dates, scenarios, mae, best, worst).error)
    ensures PlotSpec(old(data.Contents()), store, dates, scenarios, mae, best, worst).Ok? ==>
      r.Ok? && (r.value == null <==> PlotSpec(old(data.Contents()), store, dates, scenarios, mae, best, worst).value.None?)
    ensures PlotSpec(old(data.Contents()), store, dates, scenarios, mae, best, worst).Ok? && r.Ok? && r.value != null ==>
      fresh(r.value) && r.value.traces == PlotSpec(old(data.Contents()), store, dates, scenarios, mae, best, worst).value.value
  {
    ghost var t0 := data.Contents();
    if |dates| != |data.rows| {
      return Err(LengthMismatch);
    }
    data.Assign("date", PairValues(dates));
    assert data.Contents() == Attach(t0, dates).value;
    PlotSpecSteps(t0, store, dates, scenarios, mae, best, worst);
    var selected := data.RowsWhere("store", store);
    if selected.Err? {
      return Err(selected.error);
    }
    var kept := selected.value;
    if |kept.rows| == 0 {
      return Ok(null);
    }
    var pred := kept.Get("predicted_sales");
    if pred.Err? {
      return Err(pred.error);
    }
    if store !in mae {
      return Err(KeyNotFound(store));
    }
    var m := mae[store];
    var x := kept.Get("date");
    var fig := ScenarioFigure(scenarios, x.value, pred.value, MapValues(v => best(v, m), pred.value), MapValues(v => worst(v, m), pred.value));
    r := Ok(fig);
  }

  /** The figure of interactive_plot: one `add_trace` per selected scenario. */
  method ScenarioFigure(scenarios: seq<string>, x: seq<Value>, expected: seq<Value>, best: seq<Value>, worst: seq<Value>)
    returns (fig: Figure)
    ensures fresh(fig) && fig.traces == ScenarioTraces(scenarios, x, expected, best, worst)
  {
    fig := new Figure();
    if "Expected Sales" in scenarios {
      fig.AddTrace(Trace(ExpectedName, x, expected));
    }
    if "Best Scenario" in scenarios {
      fig.AddTrace(Trace(BestName, x, best));
    }
    if "Worst Scenario" in scenarios {
      fig.AddTrace(Trace(WorstName, x, worst));
    }
  }

  // ---------------------------------------------------------------------
  // The page

  /** `st.sidebar.number_input(min_value=1, max_value=1115, value=500, step=1)`. */
  type StoreNumber = n: int | 1 <= n <= 1115 witness 500

  const DefaultStore: StoreNumber := 500

  const ChooseScenarioText := "Please choose at least one scenario"
  const NoStoreText := "The chosen store doesn't exist on databases. Try another one :) ..."

  /** The outside calls the page makes: load the CSV data, request the predictions. */
  datatype PageCall = LoadData | RequestPredictions

  /** What the page shows below the widgets. */
  datatype Shown = Caption(text: string) | Chart(traces: seq<Trace>) | Failed(error: Error)

  datatype Page = Page(calls: seq<PageCall>, shown: Shown)

  /** What the page shows once at least one scenario is selected. */
  function ShownSpec(store: StoreNumber, scenarios: seq<string>, loaded: Table,
                     tr: Transformers, nm: Numerics, model: Table -> seq<Value>, mae: map<int, real>,
                     best: (Value, real) -> Value, worst: (Value, real) -> Value): (r: Shown)
    requires Labelled(loaded)
  {
    match MakeRequest(tr, nm, model, loaded)
    case Err(e) => Failed(e)
    case Ok(predicted) =>
      match GetDateFiltered(loaded)
      case Err(e) => Failed(e)
      case Ok(dates) =>
        match PlotSpec(predicted, store, dates, scenarios, mae, best, worst)
        case Err(e) => Failed(e)
        case Ok(None) => Caption(NoStoreText)
        case Ok(Some(traces)) => Chart(traces)
  }

  /** The page script below the widgets: no scenario selected gives a
      prompt and loads nothing; otherwise data, predictions, dates and chart. */
  method ShowPage(store: StoreNumber, scenarios: seq<string>, loaded: Table,
                  tr: Transformers, nm: Numerics, model: Table -> seq<Value>, mae: map<int, real>,
                  best: (Value, real) -> Value, worst: (Value, real) -> Value) returns (p: Page)
    requires Labelled(loaded)
    ensures scenarios == [] <==> p.calls == []
    ensures scenarios == [] ==> p.shown == Caption(ChooseScenarioText)
    ensures scenarios != [] ==> p.calls == [LoadData, RequestPredictions]
    ensures scenarios != [] ==> p.shown == ShownSpec(store, scenarios, loaded, tr, nm, model, mae, best, worst)
  {
    if scenarios == [] {
      return Page([], Caption(ChooseScenarioText));
    }
    var calls := [LoadData, RequestPredictions];
    var predicted := MakeRequest(tr, nm, model, loaded);
    if predicted.Err? {
      return Page(calls, Failed(predicted.error));
    }
    var dates := GetDateFiltered(loaded);
    if dates.Err? {
      return Page(calls, Failed(dates.error));
    }
    var frame := new Frame(predicted.value);
    var fig := InteractivePlot(frame, store, dates.value, scenarios, mae, best, worst);
    if fig.Err? {
      return Page(calls, Failed(fig.error));
    }
    if fig.value == null {
      return Page(calls, Caption(NoStoreText));
    }
    p := Page(calls, Chart(fig.value.traces));
  }

  /** With the loaded data and the API consistent, the page shows a chart of
      the chosen store, or says the store does not exist, exactly as the
      store has rows among the predictions or not; it never fails on the
      dates. */
  lemma PageForStore(store: StoreNumber, scenarios: seq<string>, loaded: Table,
                     tr: Transformers, nm: Numerics, model: Table -> seq<Value>, mae: map<int, real>,
                     best: (Value, real) -> Value, worst: (Value, real) -> Value)
    requires Labelled(loaded) && "Open" in loaded.columns && "Date" in loaded.columns
    requires MakeRequest(tr, nm, model, loaded).Ok? && "store" in MakeRequest(tr, nm, model, loaded).value.columns
    ensures var predicted := MakeRequest(tr, nm, model, loaded).value;
      (ShownSpec(store, scenarios, loaded, tr, nm, model, mae, best, worst) == Caption(NoStoreText)) == (CountEq(Column(predicted, "store"), store) == 0)
  {
    DatesMatchPredictions(tr, nm, model, loaded);
    var predicted := MakeRequest(tr, nm, model, loaded).value;
    var dates := GetDateFiltered(loaded).value;
    var r := PlotSpec(predicted, store, dates, scenarios, mae, best, worst);
    assert r == Ok(None) <==> CountEq(Column(predicted, "store"), store) == 0;
  }
}
