/** The inference-time feature pipeline of the Rossmann class: cleaning,
    feature engineering, filtering, preparation and the column bookkeeping
    of the prediction step. Each stage is specified by a function on
    tables; the class at the end applies the stages to frames in place. */
module Rossmann {
  import opened Values
  import opened Calendar
  import opened Tables
  import opened Frames
  import opened SnakeCase
  import opened Features

  /** The fitted imputers and scalers the constructor unpickles, as functions
      on one cell, and the scaler's inverse used on the way out. */
  datatype Transformers = Transformers(
    competitionDistanceImputer: Value -> Value,
    competitionOpenSinceMonthImputer: Value -> Value,
    competitionOpenSinceMonthScaler: Value -> Value,
    competitionOpenSinceYearImputer: Value -> Value,
    promo2SinceWeekImputer: Value -> Value,
    promo2SinceWeekScaler: Value -> Value,
    promo2SinceYearImputer: Value -> Value,
    promo2SinceYearScaler: Value -> Value,
    storeScaler: Value -> Value,
    storeUnscaler: Value -> Value)

  /** The floating-point library calls: sin and cos of x * (2 pi / period),
      and expm1 of a model output. */
  datatype Numerics = Numerics(sin: (real, nat) -> real, cos: (real, nat) -> real, expm1: Value -> Value)

  /** The table a stage leaves behind, and whether it finished or raised. */
  datatype Staged = Staged(table: Table, outcome: Outcome)

  // ---------------------------------------------------------------------
  // data_cleaning

  /** The request with its labels in snake case and nothing else changed:
      the frame after `df.columns = ...`. */
  function SnakeCased(t: Table): (u: Table)
    requires WellFormed(t)
    ensures WellFormed(u) && u.rows == t.rows && |u.columns| == |t.columns|
  {
    Table(SnakeCaseAll(t.columns), t.rows)
  }

  /** The `date` column of the snake-cased request parses cell by cell. */
  predicate DatesParse(u: Table)
    requires WellFormed(u)
  {
    "date" in u.columns && MapResults(ParseDate, Column(u, "date")).Ok?
  }

  /** The renamed labels, the parsed `date` column and the imputed
      `competition_distance` column. The stage finishes exactly when the
      snake-case labels are distinct, `date` exists and parses,
      `competition_distance` exists and the frame has a row for the imputer
      to transform; otherwise it raises the error of the first of these
      steps that fails. A collision of snake-case labels stops the stage
      before the renaming. */
  function Clean(tr: Transformers, t: Table): (r: Staged)
    requires Labelled(t)
    ensures Labelled(r.table) && |r.table.rows| == |t.rows|
    ensures r.outcome == Fail(DuplicateLabels) <==> !Distinct(SnakeCaseAll(t.columns))
    ensures r.outcome.Pass? <==>
      Distinct(SnakeCased(t).columns) && DatesParse(SnakeCased(t)) && "competition_distance" in SnakeCased(t).columns &&
      |t.rows| > 0
    ensures Distinct(SnakeCased(t).columns) && "date" !in SnakeCased(t).columns ==>
      r.outcome == Fail(KeyError("date"))
    ensures Distinct(SnakeCased(t).columns) && "date" in SnakeCased(t).columns && !DatesParse(SnakeCased(t)) ==>
      r.outcome == Fail(MapResults(ParseDate, Column(SnakeCased(t), "date")).error)
    ensures Distinct(SnakeCased(t).columns) && DatesParse(SnakeCased(t)) && "competition_distance" !in SnakeCased(t).columns ==>
      r.outcome == Fail(KeyError("competition_distance"))
    ensures |t.rows| == 0 && Distinct(SnakeCased(t).columns) && DatesParse(SnakeCased(t)) && "competition_distance" in SnakeCased(t).columns ==>
      r.outcome == Fail(NoSamples)
    ensures r.outcome.Fail? && r.outcome != Fail(DuplicateLabels) ==> r.table.columns == SnakeCaseAll(t.columns)
    ensures r.outcome.Pass? ==> r.table.columns == SnakeCaseAll(t.columns)
    ensures r.outcome.Pass? ==> "date" in r.table.columns && "competition_distance" in r.table.columns
    ensures r.outcome.Pass? ==> IsDateColumn(Column(r.table, "date"))
    ensures r.outcome.Pass? ==> Column(r.table, "date") == MapResults(ParseDate, Column(SnakeCased(t), "date")).value
    ensures r.outcome.Pass? ==>
      Column(r.table, "competition_distance") == MapValues(tr.competitionDistanceImputer, Column(SnakeCased(t), "competition_distance"))
    ensures r.outcome.Pass? ==> forall d :: d in r.table.columns && d != "date" && d != "competition_distance" ==>
      Column(r.table, d) == Column(SnakeCased(t), d)
  {
    var names := SnakeCaseAll(t.columns);
    if !Distinct(names) then Staged(t, Fail(DuplicateLabels))
    else
      var t1 := Table(names, t.rows);
      if "date" !in names then Staged(t1, Fail(KeyError("date")))
      else match MapResults(ParseDate, Column(t1, "date"))
        case Err(e) => assert e != DuplicateLabels; Staged(t1, Fail(e))
        case Ok(ds) =>
          ParsedIsDateColumn(Column(t1, "date"));
          var t2 := SetColumn(t1, "date", ds);
          if "competition_distance" !in t2.columns then Staged(t2, Fail(KeyError("competition_distance")))
          else if |t2.rows| == 0 then Staged(t2, Fail(NoSamples))
          else
            var r := SetColumn(t2, "competition_distance", MapValues(tr.competitionDistanceImputer, Column(t2, "competition_distance")));
            CleanCarry(t1, t2, r, ds);
            Staged(r, Pass)
  }

  /** The merged test and store frame the bot and the dashboard send never
      collides on renaming: its cleaning finishes exactly when it has a row
      and its dates parse, and leaves the snake-case labels the later stages read. */
  lemma MergedRequestCleans(tr: Transformers, t: Table)
    requires Labelled(t) && t.columns == MergedLabels
    ensures SnakeCased(t).columns == MergedSnakeLabels
    ensures Clean(tr, t).outcome != Fail(DuplicateLabels)
    ensures "date" in SnakeCased(t).columns && "competition_distance" in SnakeCased(t).columns
    ensures Clean(tr, t).outcome.Pass? <==> DatesParse(SnakeCased(t)) && |t.rows| > 0
    ensures Clean(tr, t).outcome.Pass? ==> Clean(tr, t).table.columns == MergedSnakeLabels
  {
    MergedLabelsRename();
    MergedSnakeLabelsRead();
  }

  lemma MergedSnakeLabelsRead()
    ensures Distinct(MergedSnakeLabels)
    ensures "date" in MergedSnakeLabels && "competition_distance" in MergedSnakeLabels
  {
    MergedSnakeLabelsDistinct();
    assert MergedSnakeLabels[3] == "date" && MergedSnakeLabels[10] == "competition_distance";
  }

  /** Column bookkeeping of the two assignments of data_cleaning. */
  lemma CleanCarry(t1: Table, t2: Table, r: Table, ds: seq<Value>)
    requires Labelled(t1) && Labelled(t2) && Labelled(r) && "date" in t1.columns
    requires t2.columns == AddLabel(t1.columns, "date") && Column(t2, "date") == ds
    requires forall d :: d in t1.columns && d != "date" ==> Column(t2, d) == Column(t1, d)
    requires "competition_distance" in t2.columns && r.columns == AddLabel(t2.columns, "competition_distance")
    requires forall d :: d in t2.columns && d != "competition_distance" ==> Column(r, d) == Column(t2, d)
    ensures r.columns == t1.columns && Column(r, "date") == ds
    ensures Column(t2, "competition_distance") == Column(t1, "competition_distance")
    ensures forall d :: d in r.columns && d != "date" && d != "competition_distance" ==> Column(r, d) == Column(t1, d)
  {
    assert "date" != "competition_distance";
  }

  // ---------------------------------------------------------------------
  // feature_engineering

  const DerivedLabels: seq<string> := ["day_of_month", "day_of_year", "month"]

  /** `df['day_of_year'] = dates.dt.strftime('%j')` then `.astype('int')`. */
  function DayOfYearStage(t: Table, dates: seq<Value>): (r: Staged)
    requires Labelled(t) && |dates| == |t.rows|
    ensures Labelled(r.table) && |r.table.rows| == |t.rows|
    ensures r.table.columns == AddLabel(t.columns, "day_of_year")
    ensures forall d :: d in t.columns && d != "day_of_year" ==> Column(r.table, d) == Column(t, d)
    ensures r.outcome.Pass? ==> forall i :: 0 <= i < |dates| ==> CastInt(DayOfYearText(dates[i]), "day_of_year") == Ok(Column(r.table, "day_of_year")[i])
  {
    var t1 := SetColumn(t, "day_of_year", MapValues(DayOfYearText, dates));
    match MapResults(v => CastInt(v, "day_of_year"), Column(t1, "day_of_year"))
    case Err(e) => Staged(t1, Fail(e))
    case Ok(days) => Staged(SetColumn(t1, "day_of_year", days), Pass)
  }

  /** Adds day_of_month, day_of_year and month from a date column without
      any other change. */
  function DateParts(t: Table, dates: seq<Value>): (r: Staged)
    requires Labelled(t) && |dates| == |t.rows|
    ensures Labelled(r.table) && |r.table.rows| == |t.rows|
    ensures r.outcome.Pass? ==> r.table.columns == AddLabel(AddLabel(AddLabel(t.columns, "day_of_month"), "day_of_year"), "month")
    ensures r.outcome.Pass? ==> forall d :: d in t.columns && d !in DerivedLabels ==> Column(r.table, d) == Column(t, d)
    ensures r.outcome.Pass? ==> Column(r.table, "day_of_month") == MapValues(DayOfMonth, dates)
    ensures r.outcome.Pass? ==> Column(r.table, "month") == MapValues(Month, dates)
    ensures r.outcome.Pass? ==> forall i :: 0 <= i < |dates| ==> CastInt(DayOfYearText(dates[i]), "day_of_year") == Ok(Column(r.table, "day_of_year")[i])
  {
    var t1 := SetColumn(t, "day_of_month", MapValues(DayOfMonth, dates));
    var s := DayOfYearStage(t1, dates);
    if s.outcome.Fail? then s
    else
      var r := SetColumn(s.table, "month", MapValues(Month, dates));
      DatePartsCarry(t, t1, s.table, r);
      Staged(r, Pass)
  }

  /** Column bookkeeping of the three assignments of DateParts. */
  lemma DatePartsCarry(t: Table, t1: Table, t2: Table, r: Table)
    requires Labelled(t) && Labelled(t1) && Labelled(t2) && Labelled(r)
    requires t1.columns == AddLabel(t.columns, "day_of_month")
    requires t2.columns == AddLabel(t1.columns, "day_of_year")
    requires r.columns == AddLabel(t2.columns, "month")
    requires forall d :: d in t.columns && d != "day_of_month" ==> Column(t1, d) == Column(t, d)
    requires forall d :: d in t1.columns && d != "day_of_year" ==> Column(t2, d) == Column(t1, d)
    requires forall d :: d in t2.columns && d != "month" ==> Column(r, d) == Column(t2, d)
    ensures forall d :: d in t.columns && d !in DerivedLabels ==> Column(r, d) == Column(t, d)
    ensures Column(r, "day_of_month") == Column(t1, "day_of_month")
    ensures Column(r, "day_of_year") == Column(t2, "day_of_year")
  {
  }

  /** `df['day_of_week'] = df['day_of_week'].apply(...)`. */
  function DayOfWeekStage(t: Table): (r: Staged)
    requires Labelled(t)
    ensures Labelled(r.table) && |r.table.rows| == |t.rows| && r.table.columns == t.columns
    ensures r.outcome.Pass? <==> "day_of_week" in t.columns
    ensures r.outcome.Pass? ==> Column(r.table, "day_of_week") == MapValues(RemapDayOfWeek, Column(t, "day_of_week"))
    ensures forall d :: d in t.columns && d != "day_of_week" ==> Column(r.table, d) == Column(t, d)
  {
    if "day_of_week" !in t.columns then Staged(t, Fail(KeyError("day_of_week")))
    else Staged(SetColumn(t, "day_of_week", MapValues(RemapDayOfWeek, Column(t, "day_of_week"))), Pass)
  }

  /** Adds day_of_month, day_of_year and month from the date, then remaps
      day_of_week. */
  function Engineer(t: Table): (r: Staged)
    requires Labelled(t)
    ensures Labelled(r.table) && |r.table.rows| == |t.rows|
    ensures r.outcome.Pass? ==> r.table.columns == AddLabel(AddLabel(AddLabel(t.columns, "day_of_month"), "day_of_year"), "month")
    ensures r.outcome.Pass? ==> forall d :: d in t.columns && d !in DerivedLabels && d != "day_of_week" ==> Column(r.table, d) == Column(t, d)
    ensures r.outcome.Pass? ==> "date" in t.columns && "day_of_week" in t.columns && IsDateColumn(Column(t, "date"))
    ensures r.outcome.Pass? ==> Column(r.table, "day_of_month") == MapValues(DayOfMonth, Column(t, "date"))
    ensures r.outcome.Pass? ==> Column(r.table, "month") == MapValues(Month, Column(t, "date"))
    ensures r.outcome.Pass? ==> forall i :: 0 <= i < |t.rows| ==>
      CastInt(DayOfYearText(Column(t, "date")[i]), "day_of_year") == Ok(Column(r.table, "day_of_year")[i])
    ensures r.outcome.Pass? ==> Column(r.table, "day_of_week") == MapValues(RemapDayOfWeek, Column(t, "day_of_week"))
  {
    if "date" !in t.columns then Staged(t, Fail(KeyError("date")))
    else
      var dates := Column(t, "date");
      if !IsDateColumn(dates) then Staged(t, Fail(NotDatetime))
      else
        var s := DateParts(t, dates);
        if s.outcome.Fail? then s
        else
          var r := DayOfWeekStage(s.table);
          if r.outcome.Pass? then EngineerCarry(t, s.table, r.table); r else r
  }

  /** Column bookkeeping of the two steps of feature_engineering: the date
      parts added first, then day_of_week remapped in place. */
  lemma EngineerCarry(t: Table, s: Table, r: Table)
    requires Labelled(t) && Labelled(s) && Labelled(r)
    requires s.columns == AddLabel(AddLabel(AddLabel(t.columns, "day_of_month"), "day_of_year"), "month")
    requires forall d :: d in t.columns && d !in DerivedLabels ==> Column(s, d) == Column(t, d)
    requires r.columns == s.columns && "day_of_week" in s.columns
    requires Column(r, "day_of_week") == MapValues(RemapDayOfWeek, Column(s, "day_of_week"))
    requires forall d :: d in s.columns && d != "day_of_week" ==> Column(r, d) == Column(s, d)
    ensures "day_of_week" in t.columns
    ensures Column(r, "day_of_week") == MapValues(RemapDayOfWeek, Column(t, "day_of_week"))
    ensures forall d :: d in t.columns && d !in DerivedLabels && d != "day_of_week" ==> Column(r, d) == Column(t, d)
    ensures Column(r, "day_of_month") == Column(s, "day_of_month")
    ensures Column(r, "day_of_year") == Column(s, "day_of_year")
    ensures Column(r, "month") == Column(s, "month")
  {
    EngineerLabels();
  }

  lemma EngineerLabels()
    ensures "day_of_week" !in DerivedLabels && "date" !in DerivedLabels && "open" !in DerivedLabels
    ensures "day_of_month" != "day_of_week" && "day_of_year" != "day_of_week" && "month" != "day_of_week"
    ensures "day_of_month" != "date" && "day_of_year" != "date" && "month" != "date"
  {
  }

  /** The stage finishes exactly when there is a date column without NaT and
      a day_of_week column. */
  lemma EngineerOutcome(t: Table)
    requires Labelled(t)
    ensures Engineer(t).outcome.Pass? <==>
      "date" in t.columns && IsDateColumn(Column(t, "date"))
      && (forall i :: 0 <= i < |t.rows| ==> Column(t, "date")[i].Stamp?) && "day_of_week" in t.columns
  {
    if "date" in t.columns && IsDateColumn(Column(t, "date")) {
      var dates := Column(t, "date");
      DayOfYearCastsWithoutNaT(dates, "day_of_year");
      var t1 := SetColumn(t, "day_of_month", MapValues(DayOfMonth, dates));
      var t2 := SetColumn(t1, "day_of_year", MapValues(DayOfYearText, dates));
      assert Column(t2, "day_of_year") == MapValues(DayOfYearText, dates);
    }
  }

  /** When the stage finishes, the derived columns hold the calendar's date
      parts of each row's date and day_of_week holds the remapped values. */
  lemma EngineerValues(t: Table)
    requires Labelled(t) && Engineer(t).outcome.Pass?
    ensures "date" in t.columns && "day_of_week" in t.columns
    ensures forall i :: 0 <= i < |t.rows| ==> Column(t, "date")[i].Stamp? && IsTimestamp(Column(t, "date")[i].date)
    ensures var r := Engineer(t).table;
      forall i :: 0 <= i < |t.rows| ==>
        && Column(r, "day_of_month")[i] == Int(Column(t, "date")[i].date.day)
        && Column(r, "day_of_year")[i] == Int(DayOfYear(Column(t, "date")[i].date))
        && Column(r, "month")[i] == Int(Column(t, "date")[i].date.month)
        && Column(r, "day_of_week")[i] == RemapDayOfWeek(Column(t, "day_of_week")[i])
  {
    EngineerDates(t);
    var r := Engineer(t).table;
    DateColumns(Column(t, "date"), Column(r, "day_of_month"), Column(r, "day_of_year"), Column(r, "month"));
  }

  /** When the stage finishes, every date is a timestamp. */
  lemma EngineerDates(t: Table)
    requires Labelled(t) && Engineer(t).outcome.Pass?
    ensures "date" in t.columns && "day_of_week" in t.columns
    ensures forall i :: 0 <= i < |t.rows| ==> Column(t, "date")[i].Stamp? && IsTimestamp(Column(t, "date")[i].date)
  {
    EngineerOutcome(t);
    TimestampsWithoutNaT(Column(t, "date"));
  }

  lemma TimestampsWithoutNaT(vs: seq<Value>)
    requires IsDateColumn(vs) && forall i :: 0 <= i < |vs| ==> vs[i].Stamp?
    ensures forall i :: 0 <= i < |vs| ==> vs[i].Stamp? && IsTimestamp(vs[i].date)
  {
  }

  /** The derived date columns, row by row. */
  lemma DateColumns(dates: seq<Value>, dom: seq<Value>, doy: seq<Value>, mon: seq<Value>)
    requires |dom| == |doy| == |mon| == |dates|
    requires forall i :: 0 <= i < |dates| ==> dates[i].Stamp? && IsTimestamp(dates[i].date)
    requires dom == MapValues(DayOfMonth, dates) && mon == MapValues(Month, dates)
    requires forall i :: 0 <= i < |dates| ==> CastInt(DayOfYearText(dates[i]), "day_of_year") == Ok(doy[i])
    ensures forall i :: 0 <= i < |dates| ==>
      IsTimestamp(dates[i].date) && dom[i] == Int(dates[i].date.day)
      && doy[i] == Int(DayOfYear(dates[i].date)) && mon[i] == Int(dates[i].date.month)
  {
    forall i | 0 <= i < |dates|
      ensures IsTimestamp(dates[i].date) && doy[i] == Int(DayOfYear(dates[i].date))
    {
      DatePartsOfTimestamp(dates[i].date, "day_of_year");
    }
  }

  // ---------------------------------------------------------------------
  // data_filtering

  /** The rows where open == 1, without the open column, as a new table. */
  function Filter(t: Table): (r: Result<Table>)
    requires Labelled(t)
    ensures r.Err? <==> "open" !in t.columns
    ensures r.Err? ==> r.error == KeyError("open")
    ensures r.Ok? ==> Labelled(r.value) && "open" !in r.value.columns
    ensures r.Ok? ==> r.value.columns == RemoveAt(t.columns, IndexOf(t.columns, "open"))
    ensures r.Ok? ==> |r.value.rows| == CountEq(Column(t, "open"), 1) <= |t.rows|
    ensures r.Ok? ==> forall d :: d in t.columns && d != "open" ==>
      Column(r.value, d) == KeepBy(Column(t, d), Column(t, "open"), 1)
  {
    if "open" !in t.columns then Err(KeyError("open"))
    else
      var k := IndexOf(t.columns, "open");
      KeptSameWidth(t.rows, k, |t.columns|, 1);
      KeptRowCount(t, "open", 1);
      var kept := Table(t.columns, KeepWhere(t.rows, k, 1));
      assert forall d :: d in t.columns ==> Column(kept, d) == KeepBy(Column(t, d), Column(t, "open"), 1) by {
        forall d | d in t.columns
          ensures Column(kept, d) == KeepBy(Column(t, d), Column(t, "open"), 1)
        {
          ColumnOfKept(t, "open", 1, d);
        }
      }
      Ok(DropColumn(kept, "open"))
  }

  // ---------------------------------------------------------------------
  // data_preparation

  const Unavailable: seq<string> := ["state_holiday", "school_holiday", "promo"]

  /** Relabels assortment and drops the columns production data lacks. */
  function PrepareStart(t: Table): (r: Staged)
    requires Labelled(t)
    ensures Labelled(r.table) && |r.table.rows| == |t.rows|
    ensures r.outcome.Pass? ==> forall c :: c in Unavailable ==> c !in r.table.columns
    ensures r.outcome.Pass? ==> forall d :: d in r.table.columns <==> d in t.columns && d !in Unavailable
    ensures r.outcome.Pass? <==> "assortment" in t.columns && forall c :: c in Unavailable ==> c in t.columns
    ensures r.outcome.Pass? ==> Column(r.table, "assortment") == MapValues(RelabelAssortment, Column(t, "assortment"))
    ensures r.outcome.Pass? ==> forall d :: d in r.table.columns && d != "assortment" ==> Column(r.table, d) == Column(t, d)
  {
    if "assortment" !in t.columns then Staged(t, Fail(KeyError("assortment")))
    else
      var t1 := SetColumn(t, "assortment", MapValues(RelabelAssortment, Column(t, "assortment")));
      match DropColumns(t1, Unavailable)
      case Err(e) => Staged(t1, Fail(e))
      case Ok(t2) => Staged(t2, Pass)
  }

  /** `dict_inputter`. */
  function Imputer(tr: Transformers, c: string): Option<Value -> Value> {
    if c == "competition_open_since_month" then Some(tr.competitionOpenSinceMonthImputer)
    else if c == "competition_open_since_year" then Some(tr.competitionOpenSinceYearImputer)
    else if c == "promo2_since_week" then Some(tr.promo2SinceWeekImputer)
    else if c == "promo2_since_year" then Some(tr.promo2SinceYearImputer)
    else None
  }

  /** `dict_scaler`. */
  function Scaler(tr: Transformers, c: string): Option<Value -> Value> {
    if c == "store" then Some(tr.storeScaler)
    else if c == "competition_open_since_month" then Some(tr.competitionOpenSinceMonthScaler)
    else if c == "promo2_since_week" then Some(tr.promo2SinceWeekScaler)
    else if c == "promo2_since_year" then Some(tr.promo2SinceYearScaler)
    else None
  }

  /** `dict_bins`, for the two discretized columns. */
  function Edges(c: string): (r: Option<seq<int>>)
    ensures r.Some? ==> |r.value| > 2
  {
    if c == "competition_open_since_year" then Some(CompetitionOpenSinceYearEdges)
    else if c == "competition_distance" then Some(CompetitionDistanceEdges)
    else None
  }

  /** `aux_dict`, for the two encoded columns. */
  function Encoder(c: string): Option<Value -> Value> {
    if c == "store_type" then Some(EncodeStoreType)
    else if c == "assortment" then Some(EncodeAssortment)
    else None
  }

  /** `cyclic_dict`, for the four columns of the cyclic list. */
  function Period(c: string): Option<nat> {
    if c == "day_of_month" then Some(30)
    else if c == "day_of_year" then Some(365)
    else if c == "month" then Some(12)
    else if c == "day_of_week" then Some(7)
    else None
  }

  predicate IsCyclic(c: string) {
    Period(c).Some?
  }

  function ImputeStep(tr: Transformers, c: string, t: Table): (r: Table)
    requires Labelled(t) && c in t.columns
    ensures Labelled(r) && r.columns == t.columns && |r.rows| == |t.rows|
    ensures forall d :: d in t.columns && d != c ==> Column(r, d) == Column(t, d)
  {
    match Imputer(tr, c)
    case None => t
    case Some(g) => SetColumn(t, c, MapValues(g, Column(t, c)))
  }

  function ScaleStep(tr: Transformers, c: string, t: Table): (r: Table)
    requires Labelled(t) && c in t.columns
    ensures Labelled(r) && r.columns == t.columns && |r.rows| == |t.rows|
    ensures forall d :: d in t.columns && d != c ==> Column(r, d) == Column(t, d)
  {
    match Scaler(tr, c)
    case None => t
    case Some(g) => SetColumn(t, c, MapValues(g, Column(t, c)))
  }

  function BinStep(c: string, t: Table): (r: Result<Table>)
    requires Labelled(t) && c in t.columns
    ensures r.Ok? ==> Labelled(r.value) && r.value.columns == t.columns && |r.value.rows| == |t.rows|
    ensures r.Ok? ==> forall d :: d in t.columns && d != c ==> Column(r.value, d) == Column(t, d)
  {
    match Edges(c)
    case None => Ok(t)
    case Some(e) =>
      match MapResults(v => BinValue(e, v, c), Column(t, c))
      case Err(err) => Err(err)
      case Ok(vs) => Ok(SetColumn(t, c, vs))
  }

  function EncodeStep(c: string, t: Table): (r: Table)
    requires Labelled(t) && c in t.columns
    ensures Labelled(r) && r.columns == t.columns && |r.rows| == |t.rows|
    ensures forall d :: d in t.columns && d != c ==> Column(r, d) == Column(t, d)
  {
    match Encoder(c)
    case None => t
    case Some(g) => SetColumn(t, c, MapValues(g, Column(t, c)))
  }

  /** Adds `c_sin` and `c_cos` and drops c, for the columns of the cyclic
      list. It finishes exactly when no cell of c is text or a date, and then
      the new columns hold the sine and cosine of each cell of c. */
  function CyclicStep(nm: Numerics, c: string, t: Table): (r: Result<Table>)
    requires Labelled(t) && c in t.columns
    ensures r.Ok? ==> Labelled(r.value) && |r.value.rows| == |t.rows|
    ensures !IsCyclic(c) ==> r == Ok(t)
    ensures IsCyclic(c) ==> (r.Ok? <==> forall i :: 0 <= i < |t.rows| ==> !(Column(t, c)[i].Str? || Column(t, c)[i].Stamp?))
    ensures r.Err? ==> r == Err(NotNumeric(c))
    ensures r.Ok? && IsCyclic(c) ==>
      r.value.columns == RemoveAt(AddLabel(AddLabel(t.columns, c + "_sin"), c + "_cos"), IndexOf(t.columns, c))
    ensures r.Ok? && IsCyclic(c) ==> c !in r.value.columns && c + "_sin" in r.value.columns && c + "_cos" in r.value.columns
    ensures r.Ok? && IsCyclic(c) ==> forall i :: 0 <= i < |t.rows| ==>
      && CyclicValue(nm.sin, Period(c).value, Column(t, c)[i], c) == Ok(Column(r.value, c + "_sin")[i])
      && CyclicValue(nm.cos, Period(c).value, Column(t, c)[i], c) == Ok(Column(r.value, c + "_cos")[i])
    ensures r.Ok? ==> forall d :: d in t.columns && d != c && d != c + "_sin" && d != c + "_cos" ==>
      d in r.value.columns && Column(r.value, d) == Column(t, d)
  {
    match Period(c)
    case None => Ok(t)
    case Some(p) =>
      match CyclicColumn(nm.sin, p, c, Column(t, c))
      case Err(e) => Err(e)
      case Ok(sins) =>
        match CyclicColumn(nm.cos, p, c, Column(t, c))
        case Err(e) => Err(e)
        case Ok(coss) =>
          CyclicReplace(t, c, sins, coss);
          Ok(DropColumn(SetColumn(SetColumn(t, c + "_sin", sins), c + "_cos", coss), c))
  }

  /** `df[c].apply(lambda x: np.sin(...))` (or cos) for column c: one value
      per cell, and NotNumeric exactly when some cell is text or a date. */
  function CyclicColumn(f: (real, nat) -> real, p: nat, c: string, vs: seq<Value>): (r: Result<seq<Value>>)
    ensures r.Ok? <==> forall i :: 0 <= i < |vs| ==> !(vs[i].Str? || vs[i].Stamp?)
    ensures r.Err? ==> r == Err(NotNumeric(c))
    ensures r.Ok? ==> |r.value| == |vs| && forall i :: 0 <= i < |vs| ==> CyclicValue(f, p, vs[i], c) == Ok(r.value[i])
  {
    MapResults(v => CyclicValue(f, p, v, c), vs)
  }

  /** The labels and kept columns after adding c's sine and cosine columns
      and dropping c. */
  lemma CyclicReplace(t: Table, c: string, sins: seq<Value>, coss: seq<Value>)
    requires Labelled(t) && c in t.columns && |sins| == |coss| == |t.rows|
    ensures var t2 := SetColumn(SetColumn(t, c + "_sin", sins), c + "_cos", coss);
      && c in t2.columns
      && DropColumn(t2, c).columns == RemoveAt(AddLabel(AddLabel(t.columns, c + "_sin"), c + "_cos"), IndexOf(t.columns, c))
      && c + "_sin" in DropColumn(t2, c).columns && Column(DropColumn(t2, c), c + "_sin") == sins
      && c + "_cos" in DropColumn(t2, c).columns && Column(DropColumn(t2, c), c + "_cos") == coss
      && forall d :: d in t.columns && d != c && d != c + "_sin" && d != c + "_cos" ==>
        d in DropColumn(t2, c).columns && Column(DropColumn(t2, c), d) == Column(t, d)
  {
    CyclicLabels(c);
    var t1 := SetColumn(t, c + "_sin", sins);
    var t2 := SetColumn(t1, c + "_cos", coss);
    assert c in t2.columns;
    IndexOfAppend(t.columns, t2.columns[|t.columns|..], c);
    assert t2.columns == t.columns + t2.columns[|t.columns|..];
  }

  lemma CyclicLabels(c: string)
    ensures c != c + "_sin" && c != c + "_cos" && c + "_sin" != c + "_cos"
  {
    assert |c + "_sin"| == |c| + 4;
    assert (c + "_sin")[|c| + 3] == 'n' && (c + "_cos")[|c| + 3] == 's';
  }

  /** The columns with a fitted imputer or scaler: `transform` of these
      refuses an array of 0 rows. */
  predicate Fitted(tr: Transformers, c: string) {
    Imputer(tr, c).Some? || Scaler(tr, c).Some?
  }

  /** One iteration of `for column in df_to_dp`: impute, scale, discretize,
      encode and the cyclic replacement, each when the column is listed for it.
      The first `transform` of a table without rows raises. */
  function PrepareColumn(tr: Transformers, nm: Numerics, c: string, t: Table): (r: Staged)
    requires Labelled(t)
    ensures Labelled(r.table) && |r.table.rows| == |t.rows|
  {
    if c !in t.columns then Staged(t, Fail(KeyError(c)))
    else if Fitted(tr, c) && |t.rows| == 0 then Staged(t, Fail(NoSamples))
    else
      var t2 := ScaleStep(tr, c, ImputeStep(tr, c, t));
      match BinStep(c, t2)
      case Err(e) => Staged(t2, Fail(e))
      case Ok(t3) =>
        var t4 := EncodeStep(c, t3);
        match CyclicStep(nm, c, t4)
        case Err(e) => Staged(t4, Fail(e))
        case Ok(t5) => Staged(t5, Pass)
  }

  /** The loop over the labels captured when it starts; the first error stops it. */
  function PrepareColumns(tr: Transformers, nm: Numerics, cs: seq<string>, t: Table): (r: Staged)
    requires Labelled(t)
    ensures Labelled(r.table) && |r.table.rows| == |t.rows|
    decreases |cs|
  {
    if cs == [] then Staged(t, Pass)
    else
      var s := PrepareColumn(tr, nm, cs[0], t);
      if s.outcome.Fail? then s else PrepareColumns(tr, nm, cs[1..], s.table)
  }

  /** What data_preparation leaves in the frame it was given. */
  function PrepareInPlace(tr: Transformers, nm: Numerics, t: Table): (r: Staged)
    requires Labelled(t)
    ensures Labelled(r.table) && |r.table.rows| == |t.rows|
  {
    var s := PrepareStart(t);
    if s.outcome.Fail? then s else PrepareColumns(tr, nm, s.table.columns, s.table)
  }

  const Selected: seq<string> := [
    "store", "store_type", "assortment", "competition_distance",
    "competition_open_since_month", "competition_open_since_year",
    "promo2_since_week", "promo2_since_year",
    "day_of_month_sin", "day_of_month_cos", "day_of_year_sin", "day_of_year_cos",
    "month_cos", "day_of_week_sin", "day_of_week_cos"]

  lemma SelectedLabels()
    ensures |Selected| == 15 && Distinct(Selected) && "month_sin" !in Selected && "predicted_sales" !in Selected
  {
  }

  /** What data_preparation returns: the 15 selected columns of the prepared frame. */
  function Prepare(tr: Transformers, nm: Numerics, t: Table): (r: Result<Table>)
    requires Labelled(t)
    ensures r.Ok? ==> Labelled(r.value) && r.value.columns == Selected && |r.value.rows| == |t.rows|
  {
    var s := PrepareInPlace(tr, nm, t);
    if s.outcome.Fail? then Err(s.outcome.error)
    else
      SelectedLabels();
      Select(s.table, Selected)
  }

  // ---------------------------------------------------------------------
  // What the column loop does

  /** An optional per-cell transformer: applied when present. */
  function Apply(g: Option<Value -> Value>, v: Value): Value {
    match g
    case None => v
    case Some(h) => h(v)
  }

  /** Reference definition of one cell's way through an iteration for a
      non-cyclic column: impute, then scale, then discretize, then encode. */
  function CellPipeline(tr: Transformers, c: string, v: Value): Result<Value> {
    var x := Apply(Scaler(tr, c), Apply(Imputer(tr, c), v));
    match Edges(c)
    case None => Ok(Apply(Encoder(c), x))
    case Some(e) =>
      match BinValue(e, x, c)
      case Err(err) => Err(err)
      case Ok(b) => Ok(Apply(Encoder(c), b))
  }

  lemma ImputeScaleCells(tr: Transformers, c: string, t: Table)
    requires Labelled(t) && c in t.columns
    ensures var t2 := ScaleStep(tr, c, ImputeStep(tr, c, t));
      forall i :: 0 <= i < |t.rows| ==> Column(t2, c)[i] == Apply(Scaler(tr, c), Apply(Imputer(tr, c), Column(t, c)[i]))
  {
  }

  /** For a column outside the cyclic list an iteration rewrites that column
      alone, cell by cell as CellPipeline says, and fails exactly when some
      cell fails there. */
  lemma PrepareColumnCells(tr: Transformers, nm: Numerics, c: string, t: Table)
    requires Labelled(t) && c in t.columns && !IsCyclic(c)
    ensures var r := PrepareColumn(tr, nm, c, t);
      r.outcome.Pass? <==> (Fitted(tr, c) ==> |t.rows| > 0) && forall i :: 0 <= i < |t.rows| ==> CellPipeline(tr, c, Column(t, c)[i]).Ok?
    ensures Fitted(tr, c) && |t.rows| == 0 ==> PrepareColumn(tr, nm, c, t) == Staged(t, Fail(NoSamples))
    ensures var r := PrepareColumn(tr, nm, c, t);
      r.outcome.Pass? ==> r.table.columns == t.columns
    ensures var r := PrepareColumn(tr, nm, c, t);
      r.outcome.Pass? ==> forall i :: 0 <= i < |t.rows| ==> CellPipeline(tr, c, Column(t, c)[i]) == Ok(Column(r.table, c)[i])
  {
    if !(Fitted(tr, c) && |t.rows| == 0) {
      PrepareColumnTransforms(tr, nm, c, t);
    }
  }

  /** PrepareColumnCells for an iteration that reaches its transformers. */
  lemma PrepareColumnTransforms(tr: Transformers, nm: Numerics, c: string, t: Table)
    requires Labelled(t) && c in t.columns && !IsCyclic(c) && !(Fitted(tr, c) && |t.rows| == 0)
    ensures var r := PrepareColumn(tr, nm, c, t);
      r.outcome.Pass? <==> forall i :: 0 <= i < |t.rows| ==> CellPipeline(tr, c, Column(t, c)[i]).Ok?
    ensures var r := PrepareColumn(tr, nm, c, t);
      r.outcome.Pass? ==> r.table.columns == t.columns
    ensures var r := PrepareColumn(tr, nm, c, t);
      r.outcome.Pass? ==> forall i :: 0 <= i < |t.rows| ==> CellPipeline(tr, c, Column(t, c)[i]) == Ok(Column(r.table, c)[i])
  {
    var t2 := ScaleStep(tr, c, ImputeStep(tr, c, t));
    ImputeScaleCells(tr, c, t);
    var x := Column(t2, c);
    match Edges(c)
    case None =>
      assert BinStep(c, t2) == Ok(t2);
      var t4 := EncodeStep(c, t2);
      assert forall i :: 0 <= i < |t.rows| ==> Column(t4, c)[i] == Apply(Encoder(c), x[i]);
    case Some(e) =>
      var bins := MapResults(v => BinValue(e, v, c), x);
      assert forall i :: 0 <= i < |t.rows| ==> CellPipeline(tr, c, Column(t, c)[i]).Ok? == BinValue(e, x[i], c).Ok?;
      if bins.Ok? {
        var t3 := SetColumn(t2, c, bins.value);
        var t4 := EncodeStep(c, t3);
        assert forall i :: 0 <= i < |t.rows| ==> Column(t4, c)[i] == Apply(Encoder(c), bins.value[i]);
      }
  }

  /** What an iteration that finishes does to the labels, and that it keeps
      every other column other than c's sine and cosine. */
  lemma PrepareColumnEffect(tr: Transformers, nm: Numerics, c: string, t: Table)
    requires Labelled(t) && c in t.columns && PrepareColumn(tr, nm, c, t).outcome.Pass?
    ensures var r := PrepareColumn(tr, nm, c, t).table;
      && (!IsCyclic(c) ==> r.columns == t.columns)
      && (IsCyclic(c) ==> r.columns == RemoveAt(AddLabel(AddLabel(t.columns, c + "_sin"), c + "_cos"), IndexOf(t.columns, c)))
      && forall d :: d in t.columns && d != c && d != c + "_sin" && d != c + "_cos" ==> d in r.columns && Column(r, d) == Column(t, d)
  {
  }

  /** A label ending in the suffix that the cyclic step adds. */
  predicate EndsWithTrig(d: string) {
    |d| >= 4 && (d[|d| - 4..] == "_sin" || d[|d| - 4..] == "_cos")
  }

  lemma TrigLabels(c: string)
    ensures EndsWithTrig(c + "_sin") && EndsWithTrig(c + "_cos")
  {
    assert (c + "_sin")[|c|..] == "_sin";
    assert (c + "_cos")[|c|..] == "_cos";
  }

  lemma TrigLabelsInjective(a: string, b: string)
    requires a != b
    ensures a + "_sin" != b + "_sin" && a + "_cos" != b + "_cos" && a + "_sin" != b + "_cos"
  {
    if |a| == |b| {
      assert (a + "_sin")[..|a|] == a && (b + "_sin")[..|b|] == b;
      assert (a + "_cos")[..|a|] == a && (b + "_cos")[..|b|] == b;
    }
    assert (a + "_sin")[|a + "_sin"| - 1] == 'n' && (b + "_cos")[|b + "_cos"| - 1] == 's';
  }

  /** The labels the loop keeps: those outside the cyclic list, in order. */
  function NonCyclic(cs: seq<string>): (r: seq<string>)
    ensures forall d :: d in r ==> d in cs
  {
    if cs == [] then []
    else NonCyclic(cs[..|cs| - 1]) + (if IsCyclic(cs[|cs| - 1]) then [] else [cs[|cs| - 1]])
  }

  /** The labels the loop adds: `c_sin` and `c_cos` for each cyclic c, in order. */
  function Pairs(cs: seq<string>): seq<string> {
    if cs == [] then []
    else Pairs(cs[..|cs| - 1]) + (if IsCyclic(cs[|cs| - 1]) then [cs[|cs| - 1] + "_sin", cs[|cs| - 1] + "_cos"] else [])
  }

  lemma {:induction false} PairsAvoid(cs: seq<string>, c: string)
    requires c !in cs
    ensures c + "_sin" !in Pairs(cs) && c + "_cos" !in Pairs(cs)
  {
    if cs != [] {
      var last := cs[|cs| - 1];
      PairsAvoid(cs[..|cs| - 1], c);
      TrigLabelsInjective(c, last);
      TrigLabelsInjective(last, c);
    }
  }

  lemma DistinctSplit(done: seq<string>, c: string, rest: seq<string>)
    requires Distinct(done + ([c] + rest))
    ensures c !in done && Distinct(done + [c] + rest)
  {
    assert done + ([c] + rest) == done + [c] + rest;
    var all := done + [c] + rest;
    assert forall i :: 0 <= i < |done| ==> all[i] == done[i];
    assert all[|done|] == c;
  }

  /** One cyclic label moves from the front of the unvisited ones to the
      pairs at the end. */
  lemma ShapeStepCyclic(nm: seq<string>, c: string, rest: seq<string>, pairs: seq<string>)
    requires Distinct(nm + [c] + rest + pairs)
    requires c + "_sin" !in nm + [c] + rest + pairs && c + "_cos" !in nm + [c] + rest + pairs
    ensures var cols := nm + [c] + rest + pairs;
      RemoveAt(AddLabel(AddLabel(cols, c + "_sin"), c + "_cos"), IndexOf(cols, c)) == nm + rest + (pairs + [c + "_sin", c + "_cos"])
  {
    var cols := nm + [c] + rest + pairs;
    var sin, cos := c + "_sin", c + "_cos";
    CyclicLabels(c);
    assert AddLabel(cols, sin) == cols + [sin];
    assert cos !in cols + [sin];
    assert AddLabel(cols + [sin], cos) == cols + [sin, cos];
    var k := |nm|;
    assert cols[k] == c;
    IndexOfDistinct(cols, k);
    var u := cols + [sin, cos];
    var after := nm + rest + (pairs + [sin, cos]);
    assert |RemoveAt(u, k)| == |after|;
    forall j | 0 <= j < |after|
      ensures RemoveAt(u, k)[j] == after[j]
    {
      if j >= k {
        assert RemoveAt(u, k)[j] == u[j + 1];
      }
    }
  }

  /** The labels after visiting c, in terms of the visited prefix. */
  lemma ShapeLabels(done: seq<string>, c: string, rest: seq<string>)
    requires Distinct(done + ([c] + rest)) && Distinct(NonCyclic(done) + ([c] + rest) + Pairs(done))
    requires forall d :: d in done + ([c] + rest) ==> !EndsWithTrig(d)
    ensures var cols := NonCyclic(done) + ([c] + rest) + Pairs(done);
      && (!IsCyclic(c) ==> cols == NonCyclic(done + [c]) + rest + Pairs(done + [c]))
      && (IsCyclic(c) ==> RemoveAt(AddLabel(AddLabel(cols, c + "_sin"), c + "_cos"), IndexOf(cols, c)) == NonCyclic(done + [c]) + rest + Pairs(done + [c]))
  {
    var done' := done + [c];
    assert done'[..|done'| - 1] == done;
    DistinctSplit(done, c, rest);
    var cols := NonCyclic(done) + ([c] + rest) + Pairs(done);
    assert cols == NonCyclic(done) + [c] + rest + Pairs(done);
    if IsCyclic(c) {
      TrigLabels(c);
      PairsAvoid(done, c);
      assert Pairs(done') == Pairs(done) + [c + "_sin", c + "_cos"];
      assert NonCyclic(done') == NonCyclic(done);
      ShapeStepCyclic(NonCyclic(done), c, rest, Pairs(done));
    } else {
      assert NonCyclic(done') == NonCyclic(done) + [c];
      assert Pairs(done') == Pairs(done);
    }
  }

  lemma PrepareColumnLabels(tr: Transformers, nm: Numerics, c: string, t: Table)
    requires Labelled(t) && c in t.columns && PrepareColumn(tr, nm, c, t).outcome.Pass?
    ensures var r := PrepareColumn(tr, nm, c, t).table;
      && (!IsCyclic(c) ==> r.columns == t.columns)
      && (IsCyclic(c) ==> r.columns == RemoveAt(AddLabel(AddLabel(t.columns, c + "_sin"), c + "_cos"), IndexOf(t.columns, c)))
  {
  }

  /** One iteration of the shape induction: the visited prefix grows by c. */
  lemma ShapeStep(tr: Transformers, nm: Numerics, done: seq<string>, c: string, rest: seq<string>, t: Table)
    requires Labelled(t) && Distinct(done + ([c] + rest))
    requires forall d :: d in done + ([c] + rest) ==> !EndsWithTrig(d)
    requires t.columns == NonCyclic(done) + ([c] + rest) + Pairs(done)
    requires PrepareColumn(tr, nm, c, t).outcome.Pass?
    ensures PrepareColumn(tr, nm, c, t).table.columns == NonCyclic(done + [c]) + rest + Pairs(done + [c])
  {
    assert c in t.columns by {
      assert t.columns[|NonCyclic(done)|] == c;
    }
    PrepareColumnLabels(tr, nm, c, t);
    ShapeLabels(done, c, rest);
  }

  /** Distinct labels none of which ends in _sin or _cos, stated one label
      at a time. */
  predicate FreshLabels(s: seq<string>)
    decreases |s|
  {
    s == [] || (!EndsWithTrig(s[0]) && s[0] !in s[1..] && FreshLabels(s[1..]))
  }

  lemma {:induction false} FreshLabelsFrom(s: seq<string>)
    requires Distinct(s) && forall d :: d in s ==> !EndsWithTrig(d)
    ensures FreshLabels(s)
    decreases |s|
  {
    if s != [] {
      assert forall j :: 0 <= j < |s| - 1 ==> s[1..][j] == s[j + 1];
      FreshLabelsFrom(s[1..]);
    }
  }

  lemma {:induction false} FreshLabelsAre(s: seq<string>)
    requires FreshLabels(s)
    ensures Distinct(s) && forall d :: d in s ==> !EndsWithTrig(d)
    decreases |s|
  {
    if s != [] {
      FreshLabelsAre(s[1..]);
      assert s == [s[0]] + s[1..];
      forall i, j | 0 <= i < j < |s|
        ensures s[i] != s[j]
      {
        assert s[j] == s[1..][j - 1];
        if i > 0 {
          assert s[i] == s[1..][i - 1];
        }
      }
    }
  }

  /** One step of the shape induction: the first iteration finishes, the
      invariant holds for the rest of the loop, and the loop's result is that
      of the rest. */
  lemma ShapeStepFresh(tr: Transformers, nm: Numerics, all: seq<string>, done: seq<string>, cs: seq<string>, t: Table)
    requires FreshLabels(all) && cs != []
    requires Labelled(t) && done + cs == all && t.columns == NonCyclic(done) + cs + Pairs(done)
    requires PrepareColumns(tr, nm, cs, t).outcome.Pass?
    ensures var s := PrepareColumn(tr, nm, cs[0], t);
      && Labelled(s.table) && done + [cs[0]] + cs[1..] == all
      && s.table.columns == NonCyclic(done + [cs[0]]) + cs[1..] + Pairs(done + [cs[0]])
      && PrepareColumns(tr, nm, cs, t) == PrepareColumns(tr, nm, cs[1..], s.table)
  {
    SplitFirst(done, cs);
    PrepareColumnsUnfold(tr, nm, cs, t);
    ShapeStepLabels(tr, nm, all, done, cs[0], cs[1..], t);
  }

  lemma SplitFirst<T>(done: seq<T>, cs: seq<T>)
    requires cs != []
    ensures cs == [cs[0]] + cs[1..] && done + [cs[0]] + cs[1..] == done + cs
  {
    assert cs == [cs[0]] + cs[1..];
  }

  /** ShapeStep with the labels' freshness stated one label at a time. */
  lemma ShapeStepLabels(tr: Transformers, nm: Numerics, all: seq<string>, done: seq<string>, c: string, rest: seq<string>, t: Table)
    requires FreshLabels(all) && all == done + ([c] + rest)
    requires Labelled(t) && t.columns == NonCyclic(done) + ([c] + rest) + Pairs(done)
    requires PrepareColumn(tr, nm, c, t).outcome.Pass?
    ensures PrepareColumn(tr, nm, c, t).table.columns == NonCyclic(done + [c]) + rest + Pairs(done + [c])
  {
    FreshLabelsAre(all);
    ShapeStep(tr, nm, done, c, rest, t);
  }

  /** The loop over the captured labels `all` (the `done` ones already
      visited, `cs` still to visit) keeps the non-cyclic labels in place and
      replaces each cyclic label by its sine and cosine labels at the end, in
      visiting order. */
  lemma {:induction false} PrepareColumnsShape(tr: Transformers, nm: Numerics, all: seq<string>, done: seq<string>, cs: seq<string>, t: Table)
    requires FreshLabels(all)
    requires Labelled(t) && done + cs == all && t.columns == NonCyclic(done) + cs + Pairs(done)
    requires PrepareColumns(tr, nm, cs, t).outcome.Pass?
    ensures PrepareColumns(tr, nm, cs, t).table.columns == NonCyclic(all) + Pairs(all)
    decreases |cs|
  {
    if cs == [] {
      assert done == all;
    } else {
      ShapeStepFresh(tr, nm, all, done, cs, t);
      PrepareColumnsShape(tr, nm, all, done + [cs[0]], cs[1..], PrepareColumn(tr, nm, cs[0], t).table);
    }
  }

  /** The loop over cs after its first iteration s: stopped, or going on
      with the rest. */
  lemma ColumnsStep(tr: Transformers, nm: Numerics, cs: seq<string>, t: Table, s: Staged)
    requires Labelled(t) && cs != [] && s == PrepareColumn(tr, nm, cs[0], t)
    ensures s.outcome.Fail? ==> PrepareColumns(tr, nm, cs, t) == s
    ensures s.outcome.Pass? ==> PrepareColumns(tr, nm, cs, t) == PrepareColumns(tr, nm, cs[1..], s.table)
  {
  }

  /** data_preparation in terms of how its column loop ended. */
  lemma PrepareFinish(tr: Transformers, nm: Numerics, t: Table, t0: Table, fin: Staged)
    requires Labelled(t) && PrepareStart(t) == Staged(t0, Pass) && PrepareColumns(tr, nm, t0.columns, t0) == fin
    ensures PrepareInPlace(tr, nm, t) == fin
    ensures fin.outcome.Fail? ==> Prepare(tr, nm, t) == Err(fin.outcome.error)
    ensures fin.outcome.Pass? ==> Distinct(Selected) && Prepare(tr, nm, t) == Select(fin.table, Selected)
  {
    SelectedLabels();
  }

  /** data_preparation when its opening relabel and drop fail. */
  lemma PrepareStops(tr: Transformers, nm: Numerics, t: Table)
    requires Labelled(t) && PrepareStart(t).outcome.Fail?
    ensures PrepareInPlace(tr, nm, t) == PrepareStart(t)
    ensures Prepare(tr, nm, t) == Err(PrepareStart(t).outcome.error)
  {
  }

  /** A loop that finishes finished its first iteration and then the rest. */
  lemma PrepareColumnsUnfold(tr: Transformers, nm: Numerics, cs: seq<string>, t: Table)
    requires Labelled(t) && cs != [] && PrepareColumns(tr, nm, cs, t).outcome.Pass?
    ensures PrepareColumn(tr, nm, cs[0], t).outcome.Pass?
    ensures PrepareColumns(tr, nm, cs, t) == PrepareColumns(tr, nm, cs[1..], PrepareColumn(tr, nm, cs[0], t).table)
  {
  }

  /** A label that the loop does not visit and that is not a sine or cosine
      label keeps its column. */
  lemma {:induction false} PrepareColumnsKeeps(tr: Transformers, nm: Numerics, cs: seq<string>, t: Table, e: string)
    requires Labelled(t) && e in t.columns && e !in cs && !EndsWithTrig(e)
    requires PrepareColumns(tr, nm, cs, t).outcome.Pass?
    ensures e in PrepareColumns(tr, nm, cs, t).table.columns
    ensures Column(PrepareColumns(tr, nm, cs, t).table, e) == Column(t, e)
    decreases |cs|
  {
    if cs != [] {
      var c := cs[0];
      assert c in t.columns;
      TrigLabels(c);
      PrepareColumnEffect(tr, nm, c, t);
      PrepareColumnsKeeps(tr, nm, cs[1..], PrepareColumn(tr, nm, c, t).table, e);
    }
  }

  /** The column at the head of the loop is transformed there and kept after. */
  lemma CellsAtHead(tr: Transformers, nm: Numerics, cs: seq<string>, t: Table)
    requires Labelled(t) && Distinct(cs) && cs != [] && cs[0] in t.columns && !IsCyclic(cs[0]) && !EndsWithTrig(cs[0])
    requires PrepareColumns(tr, nm, cs, t).outcome.Pass?
    ensures var r := PrepareColumns(tr, nm, cs, t).table;
      cs[0] in r.columns && forall i :: 0 <= i < |t.rows| ==> CellPipeline(tr, cs[0], Column(t, cs[0])[i]) == Ok(Column(r, cs[0])[i])
  {
    var c := cs[0];
    var s := PrepareColumn(tr, nm, c, t);
    assert s.outcome.Pass? && PrepareColumns(tr, nm, cs, t) == PrepareColumns(tr, nm, cs[1..], s.table);
    PrepareColumnCells(tr, nm, c, t);
    assert c !in cs[1..] by {
      assert forall i :: 0 <= i < |cs[1..]| ==> cs[1..][i] == cs[i + 1];
    }
    PrepareColumnsKeeps(tr, nm, cs[1..], s.table, c);
  }

  /** An iteration for another column leaves column c alone. */
  lemma PassOver(tr: Transformers, nm: Numerics, h: string, t: Table, c: string)
    requires Labelled(t) && h in t.columns && c in t.columns && h != c && !EndsWithTrig(c)
    requires PrepareColumn(tr, nm, h, t).outcome.Pass?
    ensures c in PrepareColumn(tr, nm, h, t).table.columns && Column(PrepareColumn(tr, nm, h, t).table, c) == Column(t, c)
  {
    TrigLabels(h);
    PrepareColumnEffect(tr, nm, h, t);
  }

  /** A visited column outside the cyclic list ends up transformed cell by
      cell as CellPipeline says. */
  lemma {:induction false} PrepareColumnsCells(tr: Transformers, nm: Numerics, cs: seq<string>, t: Table, c: string)
    requires Labelled(t) && Distinct(cs) && c in cs && c in t.columns && !IsCyclic(c) && !EndsWithTrig(c)
    requires PrepareColumns(tr, nm, cs, t).outcome.Pass?
    ensures var r := PrepareColumns(tr, nm, cs, t).table;
      c in r.columns && forall i :: 0 <= i < |t.rows| ==> CellPipeline(tr, c, Column(t, c)[i]) == Ok(Column(r, c)[i])
    decreases |cs|
  {
    var h := cs[0];
    if h == c {
      CellsAtHead(tr, nm, cs, t);
    } else {
      assert h in t.columns;
      var s := PrepareColumn(tr, nm, h, t);
      assert s.outcome.Pass? && PrepareColumns(tr, nm, cs, t) == PrepareColumns(tr, nm, cs[1..], s.table);
      PassOver(tr, nm, h, t, c);
      assert c in cs[1..];
      assert Distinct(cs[1..]);
      PrepareColumnsCells(tr, nm, cs[1..], s.table, c);
    }
  }

  /** After the opening relabel and drop, the frame's labels are the
      non-cyclic ones in place followed by the sine and cosine pairs. */
  lemma PrepareInPlaceShape(tr: Transformers, nm: Numerics, t: Table)
    requires Labelled(t) && PrepareInPlace(tr, nm, t).outcome.Pass?
    requires forall d :: d in t.columns ==> !EndsWithTrig(d)
    ensures var cols := PrepareStart(t).table.columns;
      PrepareInPlace(tr, nm, t).table.columns == NonCyclic(cols) + Pairs(cols)
  {
    var s := PrepareStart(t);
    var cols := s.table.columns;
    assert [] + cols == cols && NonCyclic([]) + cols + Pairs([]) == cols;
    FreshLabelsFrom(cols);
    PrepareColumnsShape(tr, nm, cols, [], cols, s.table);
  }

  /** A selected column outside the cyclic list comes out of data_preparation
      transformed cell by cell as CellPipeline says (assortment after its
      relabelling). */
  lemma PreparedCells(tr: Transformers, nm: Numerics, t: Table, c: string)
    requires Labelled(t) && c in Selected && c in t.columns && c !in Unavailable && !IsCyclic(c) && !EndsWithTrig(c)
    requires Prepare(tr, nm, t).Ok?
    ensures var s := PrepareStart(t).table;
      c in s.columns && forall i :: 0 <= i < |t.rows| ==> CellPipeline(tr, c, Column(s, c)[i]) == Ok(Column(Prepare(tr, nm, t).value, c)[i])
  {
    var s := PrepareStart(t);
    SelectedLabels();
    PrepareColumnsCells(tr, nm, s.table.columns, s.table, c);
  }

  // ---------------------------------------------------------------------
  // When data_preparation finishes, and its sine and cosine columns

  /** The cells of column c that one iteration of the column loop accepts:
      for a cyclic column, no text and no date; otherwise at least one cell
      when the column is imputed or scaled, and every cell passes through
      CellPipeline. */
  predicate ColumnPrepares(tr: Transformers, c: string, vs: seq<Value>) {
    if IsCyclic(c) then forall i :: 0 <= i < |vs| ==> !(vs[i].Str? || vs[i].Stamp?)
    else (Fitted(tr, c) ==> |vs| > 0) && forall i :: 0 <= i < |vs| ==> CellPipeline(tr, c, vs[i]).Ok?
  }

  /** The columns of the cyclic list are neither imputed, scaled, binned nor
      encoded, and their labels do not end in _sin or _cos. */
  lemma CyclicLookups(tr: Transformers, c: string)
    requires IsCyclic(c)
    ensures Imputer(tr, c) == None && Scaler(tr, c) == None && Edges(c) == None && Encoder(c) == None
    ensures !EndsWithTrig(c) && c !in Unavailable && c != "assortment"
  {
  }

  /** An iteration for a column of the cyclic list is the cyclic step alone. */
  lemma PrepareColumnCyclic(tr: Transformers, nm: Numerics, c: string, t: Table)
    requires Labelled(t) && c in t.columns && IsCyclic(c)
    ensures var r := PrepareColumn(tr, nm, c, t);
      r.outcome.Pass? <==> forall i :: 0 <= i < |t.rows| ==> !(Column(t, c)[i].Str? || Column(t, c)[i].Stamp?)
    ensures var r := PrepareColumn(tr, nm, c, t);
      r.outcome.Pass? ==>
        && c + "_sin" in r.table.columns && c + "_cos" in r.table.columns
        && forall i :: 0 <= i < |t.rows| ==>
          && CyclicValue(nm.sin, Period(c).value, Column(t, c)[i], c) == Ok(Column(r.table, c + "_sin")[i])
          && CyclicValue(nm.cos, Period(c).value, Column(t, c)[i], c) == Ok(Column(r.table, c + "_cos")[i])
  {
    CyclicLookups(tr, c);
    assert ScaleStep(tr, c, ImputeStep(tr, c, t)) == t;
    assert BinStep(c, t) == Ok(t) && EncodeStep(c, t) == t;
  }

  /** An iteration finishes exactly when its column's cells are accepted. */
  lemma PrepareColumnPasses(tr: Transformers, nm: Numerics, c: string, t: Table)
    requires Labelled(t) && c in t.columns
    ensures PrepareColumn(tr, nm, c, t).outcome.Pass? <==> ColumnPrepares(tr, c, Column(t, c))
  {
    if IsCyclic(c) {
      PrepareColumnCyclic(tr, nm, c, t);
    } else {
      PrepareColumnCells(tr, nm, c, t);
    }
  }

  lemma TailOf<T>(cs: seq<T>)
    requires Distinct(cs) && cs != []
    ensures cs == [cs[0]] + cs[1..] && cs[0] !in cs[1..] && Distinct(cs[1..])
    ensures forall d :: d in cs[1..] ==> d in cs
  {
    assert forall j :: 0 <= j < |cs[1..]| ==> cs[1..][j] == cs[j + 1];
    assert cs == [cs[0]] + cs[1..];
  }

  /** The column loop over distinct labels, none ending in _sin or _cos,
      finishes exactly when every visited column's cells are accepted. */
  lemma {:induction false} PrepareColumnsPass(tr: Transformers, nm: Numerics, cs: seq<string>, t: Table)
    requires Labelled(t) && Distinct(cs) && forall c :: c in cs ==> c in t.columns && !EndsWithTrig(c)
    ensures PrepareColumns(tr, nm, cs, t).outcome.Pass? <==> forall c :: c in cs ==> ColumnPrepares(tr, c, Column(t, c))
    decreases |cs|
  {
    if cs != [] {
      var h := cs[0];
      var s := PrepareColumn(tr, nm, h, t);
      PrepareColumnPasses(tr, nm, h, t);
      TailOf(cs);
      if s.outcome.Pass? {
        forall c | c in cs[1..]
          ensures c in s.table.columns && Column(s.table, c) == Column(t, c)
        {
          PassOver(tr, nm, h, t, c);
        }
        PrepareColumnsPass(tr, nm, cs[1..], s.table);
      }
    }
  }

  /** A label that no iteration of the loop writes keeps its column. */
  lemma {:induction false} PrepareColumnsLeave(tr: Transformers, nm: Numerics, cs: seq<string>, t: Table, e: string)
    requires Labelled(t) && e in t.columns && PrepareColumns(tr, nm, cs, t).outcome.Pass?
    requires forall h :: h in cs ==> h != e && h + "_sin" != e && h + "_cos" != e
    ensures e in PrepareColumns(tr, nm, cs, t).table.columns
    ensures Column(PrepareColumns(tr, nm, cs, t).table, e) == Column(t, e)
    decreases |cs|
  {
    if cs != [] {
      var c := cs[0];
      assert c in t.columns;
      PrepareColumnEffect(tr, nm, c, t);
      assert forall h :: h in cs[1..] ==> h in cs;
      PrepareColumnsLeave(tr, nm, cs[1..], PrepareColumn(tr, nm, c, t).table, e);
    }
  }

  /** The cyclic column at the head of the loop gets its sine and cosine
      columns there, and no later iteration writes them. */
  lemma CyclicAtHead(tr: Transformers, nm: Numerics, cs: seq<string>, t: Table)
    requires Labelled(t) && Distinct(cs) && cs != [] && cs[0] in t.columns && IsCyclic(cs[0])
    requires cs[0] + "_sin" !in cs && cs[0] + "_cos" !in cs
    requires PrepareColumns(tr, nm, cs, t).outcome.Pass?
    ensures var r := PrepareColumns(tr, nm, cs, t).table;
      var c := cs[0];
      c + "_sin" in r.columns && c + "_cos" in r.columns
        && forall i :: 0 <= i < |t.rows| ==>
          && CyclicValue(nm.sin, Period(c).value, Column(t, c)[i], c) == Ok(Column(r, c + "_sin")[i])
          && CyclicValue(nm.cos, Period(c).value, Column(t, c)[i], c) == Ok(Column(r, c + "_cos")[i])
  {
    var c := cs[0];
    var s := PrepareColumn(tr, nm, c, t);
    assert s.outcome.Pass? && PrepareColumns(tr, nm, cs, t) == PrepareColumns(tr, nm, cs[1..], s.table);
    PrepareColumnCyclic(tr, nm, c, t);
    TailOf(cs);
    TrigLabels(c);
    forall h | h in cs[1..]
      ensures h != c + "_sin" && h + "_sin" != c + "_sin" && h + "_cos" != c + "_sin"
      ensures h != c + "_cos" && h + "_sin" != c + "_cos" && h + "_cos" != c + "_cos"
    {
      TrigLabelsInjective(h, c);
      TrigLabelsInjective(c, h);
    }
    PrepareColumnsLeave(tr, nm, cs[1..], s.table, c + "_sin");
    PrepareColumnsLeave(tr, nm, cs[1..], s.table, c + "_cos");
  }

  /** A visited column of the cyclic list ends up as its sine and cosine
      columns, cell by cell, when the loop does not itself visit those. */
  lemma {:induction false} PrepareColumnsTrig(tr: Transformers, nm: Numerics, cs: seq<string>, t: Table, c: string)
    requires Labelled(t) && Distinct(cs) && c in cs && c in t.columns && IsCyclic(c)
    requires c + "_sin" !in cs && c + "_cos" !in cs
    requires PrepareColumns(tr, nm, cs, t).outcome.Pass?
    ensures var r := PrepareColumns(tr, nm, cs, t).table;
      c + "_sin" in r.columns && c + "_cos" in r.columns
        && forall i :: 0 <= i < |t.rows| ==>
          && CyclicValue(nm.sin, Period(c).value, Column(t, c)[i], c) == Ok(Column(r, c + "_sin")[i])
          && CyclicValue(nm.cos, Period(c).value, Column(t, c)[i], c) == Ok(Column(r, c + "_cos")[i])
    decreases |cs|
  {
    var h := cs[0];
    if h == c {
      CyclicAtHead(tr, nm, cs, t);
    } else {
      assert h in t.columns;
      var s := PrepareColumn(tr, nm, h, t);
      assert s.outcome.Pass? && PrepareColumns(tr, nm, cs, t) == PrepareColumns(tr, nm, cs[1..], s.table);
      CyclicLookups(tr, c);
      PassOver(tr, nm, h, t, c);
      TailOf(cs);
      assert c in cs[1..];
      PrepareColumnsTrig(tr, nm, cs[1..], s.table, c);
    }
  }

  /** data_preparation on a frame none of whose labels ends in _sin or _cos
      leaves the loop finished exactly when the opening relabel and drop
      succeed and every remaining column's cells are accepted. */
  lemma PrepareOutcome(tr: Transformers, nm: Numerics, t: Table)
    requires Labelled(t) && forall d :: d in t.columns ==> !EndsWithTrig(d)
    ensures PrepareInPlace(tr, nm, t).outcome.Pass? <==>
      && PrepareStart(t).outcome.Pass?
      && forall c :: c in PrepareStart(t).table.columns ==> ColumnPrepares(tr, c, Column(PrepareStart(t).table, c))
  {
    var s := PrepareStart(t);
    if s.outcome.Pass? {
      PrepareColumnsPass(tr, nm, s.table.columns, s.table);
    }
  }

  /** A selected sine or cosine column holds the sine or cosine of the
      request's column of the cyclic list, cell by cell. */
  lemma PreparedTrig(tr: Transformers, nm: Numerics, t: Table, c: string)
    requires Labelled(t) && c in t.columns && IsCyclic(c) && c + "_sin" !in t.columns && c + "_cos" !in t.columns
    requires Prepare(tr, nm, t).Ok?
    ensures forall i :: 0 <= i < |t.rows| ==>
      && (c + "_sin" in Selected ==> CyclicValue(nm.sin, Period(c).value, Column(t, c)[i], c) == Ok(Column(Prepare(tr, nm, t).value, c + "_sin")[i]))
      && (c + "_cos" in Selected ==> CyclicValue(nm.cos, Period(c).value, Column(t, c)[i], c) == Ok(Column(Prepare(tr, nm, t).value, c + "_cos")[i]))
  {
    var s := PrepareStart(t);
    SelectedLabels();
    CyclicLookups(tr, c);
    assert s.outcome.Pass?;
    assert Column(s.table, c) == Column(t, c);
    PrepareColumnsTrig(tr, nm, s.table.columns, s.table, c);
    PrepareFinish(tr, nm, t, s.table, PrepareColumns(tr, nm, s.table.columns, s.table));
  }

  /** The labels a merged test/store request carries when it reaches
      data_preparation: the snake-case labels other than `open`, and the
      three date parts feature_engineering adds. */
  ghost predicate ReachesPreparation(cols: seq<string>) {
    forall d :: d in cols <==> (d in MergedSnakeLabels && d != "open") || d in DerivedLabels
  }

  /** A merged request that is cleaned and engineered reaches data_preparation
      with those labels. */
  lemma MergedRequestReaches(tr: Transformers, t: Table)
    requires Labelled(t) && t.columns == MergedLabels
    requires Clean(tr, t).outcome.Pass? && Engineer(Clean(tr, t).table).outcome.Pass?
    ensures Filter(Engineer(Clean(tr, t).table).table).Ok?
    ensures ReachesPreparation(Filter(Engineer(Clean(tr, t).table).table).value.columns)
  {
    MergedRequestCleans(tr, t);
    var e := Engineer(Clean(tr, t).table).table;
    OpenSurvives(e.columns);
  }

  lemma OpenSurvives(cols: seq<string>)
    requires Distinct(cols) && cols == AddLabel(AddLabel(AddLabel(MergedSnakeLabels, "day_of_month"), "day_of_year"), "month")
    ensures "open" in cols && ReachesPreparation(RemoveAt(cols, IndexOf(cols, "open")))
  {
    DerivedLabelsFresh();
    AddDerived(MergedSnakeLabels);
    DropMember(MergedSnakeLabels, DerivedLabels, "open");
  }

  lemma DerivedLabelsFresh()
    ensures "day_of_month" !in MergedSnakeLabels && "day_of_year" !in MergedSnakeLabels && "month" !in MergedSnakeLabels
    ensures "open" in MergedSnakeLabels
  {
    assert MergedSnakeLabels[4] == "open";
  }

  /** The date parts are appended to labels that lack them. */
  lemma AddDerived(cols: seq<string>)
    requires "day_of_month" !in cols && "day_of_year" !in cols && "month" !in cols
    ensures AddLabel(AddLabel(AddLabel(cols, "day_of_month"), "day_of_year"), "month") == cols + DerivedLabels
  {
    assert AddLabel(cols, "day_of_month") == cols + ["day_of_month"];
    assert "day_of_year" !in cols + ["day_of_month"];
    assert AddLabel(cols + ["day_of_month"], "day_of_year") == cols + ["day_of_month", "day_of_year"];
    assert "month" !in cols + ["day_of_month", "day_of_year"];
  }

  /** Dropping o from a + b leaves the rest of a and all of b. */
  lemma DropMember(a: seq<string>, b: seq<string>, o: string)
    requires Distinct(a + b) && o in a
    ensures o in a + b
    ensures forall d :: d in RemoveAt(a + b, IndexOf(a + b, o)) <==> (d in a && d != o) || d in b
  {
    RemoveAtMembers(a + b, IndexOf(a + b, o));
    forall d | d in b
      ensures d != o
    {
      var i :| 0 <= i < |b| && b[i] == d;
      var j :| 0 <= j < |a| && a[j] == o;
      assert (a + b)[|a| + i] == d && (a + b)[j] == o;
    }
  }

  /** The labels that reach data_preparation: none ends in _sin or _cos. */
  lemma ReachedFresh(cols: seq<string>)
    requires ReachesPreparation(cols)
    ensures forall d :: d in cols ==> !EndsWithTrig(d)
  {
    forall k | 0 <= k < |MergedSnakeLabels|
      ensures !EndsWithTrig(MergedSnakeLabels[k])
    {
    }
    forall k | 0 <= k < |DerivedLabels|
      ensures !EndsWithTrig(DerivedLabels[k])
    {
    }
  }

  /** The labels data_preparation relabels and drops are among them. */
  lemma ReachedStart(cols: seq<string>)
    requires ReachesPreparation(cols)
    ensures "assortment" in cols && forall c :: c in Unavailable ==> c in cols
  {
    assert MergedSnakeLabels[9] == "assortment";
    assert MergedSnakeLabels[5] == "promo" && MergedSnakeLabels[6] == "state_holiday" && MergedSnakeLabels[7] == "school_holiday";
  }

  lemma NonCyclicHas(cs: seq<string>, d: string)
    requires d in cs && !IsCyclic(d)
    ensures d in NonCyclic(cs)
  {
    if cs[|cs| - 1] != d {
      assert d in cs[..|cs| - 1] by {
        var k :| 0 <= k < |cs| && cs[k] == d;
        assert cs[..|cs| - 1][k] == d;
      }
      NonCyclicHas(cs[..|cs| - 1], d);
    }
  }

  lemma PairsHas(cs: seq<string>, d: string)
    requires d in cs && IsCyclic(d)
    ensures d + "_sin" in Pairs(cs) && d + "_cos" in Pairs(cs)
  {
    if cs[|cs| - 1] != d {
      assert d in cs[..|cs| - 1] by {
        var k :| 0 <= k < |cs| && cs[k] == d;
        assert cs[..|cs| - 1][k] == d;
      }
      PairsHas(cs[..|cs| - 1], d);
    }
  }

  /** The labels left after the opening drop include those the selection
      reads. */
  lemma ReachedKept(t: Table)
    requires Labelled(t) && ReachesPreparation(t.columns) && PrepareStart(t).outcome.Pass?
    ensures var cols := PrepareStart(t).table.columns;
      && "store" in cols && "store_type" in cols && "assortment" in cols && "competition_distance" in cols
      && "competition_open_since_month" in cols && "competition_open_since_year" in cols
      && "promo2_since_week" in cols && "promo2_since_year" in cols
      && "day_of_month" in cols && "day_of_year" in cols && "month" in cols && "day_of_week" in cols
  {
    ReachedStoreLabels(t);
    ReachedCompetitionLabels(t);
    ReachedDateLabels(t);
  }

  lemma ReachedStoreLabels(t: Table)
    requires Labelled(t) && ReachesPreparation(t.columns) && PrepareStart(t).outcome.Pass?
    ensures var cols := PrepareStart(t).table.columns;
      "store" in cols && "store_type" in cols && "assortment" in cols && "competition_distance" in cols
  {
    StoreSources();
    ReachedOne(t, "store");
    ReachedOne(t, "store_type");
    ReachedOne(t, "assortment");
    ReachedOne(t, "competition_distance");
  }

  lemma ReachedCompetitionLabels(t: Table)
    requires Labelled(t) && ReachesPreparation(t.columns) && PrepareStart(t).outcome.Pass?
    ensures var cols := PrepareStart(t).table.columns;
      && "competition_open_since_month" in cols && "competition_open_since_year" in cols
      && "promo2_since_week" in cols && "promo2_since_year" in cols
  {
    CompetitionSources();
    ReachedOne(t, "competition_open_since_month");
    ReachedOne(t, "competition_open_since_year");
    ReachedOne(t, "promo2_since_week");
    ReachedOne(t, "promo2_since_year");
  }

  lemma ReachedDateLabels(t: Table)
    requires Labelled(t) && ReachesPreparation(t.columns) && PrepareStart(t).outcome.Pass?
    ensures var cols := PrepareStart(t).table.columns;
      "day_of_month" in cols && "day_of_year" in cols && "month" in cols && "day_of_week" in cols
  {
    DateSources();
    ReachedOne(t, "day_of_week");
    ReachedOne(t, "day_of_month");
    ReachedOne(t, "day_of_year");
    ReachedOne(t, "month");
  }

  /** Where the labels the selection reads come from, and that the opening
      drop keeps them. */
  lemma StoreSources()
    ensures "store" in MergedSnakeLabels && "store" != "open" && "store" !in Unavailable
    ensures "store_type" in MergedSnakeLabels && "store_type" != "open" && "store_type" !in Unavailable
    ensures "assortment" in MergedSnakeLabels && "assortment" != "open" && "assortment" !in Unavailable
    ensures "competition_distance" in MergedSnakeLabels && "competition_distance" != "open" && "competition_distance" !in Unavailable
  {
    assert MergedSnakeLabels[1] == "store" && MergedSnakeLabels[8] == "store_type";
    assert MergedSnakeLabels[9] == "assortment" && MergedSnakeLabels[10] == "competition_distance";
  }

  lemma CompetitionSources()
    ensures "competition_open_since_month" in MergedSnakeLabels && "competition_open_since_month" != "open"
    ensures "competition_open_since_month" !in Unavailable
    ensures "competition_open_since_year" in MergedSnakeLabels && "competition_open_since_year" != "open"
    ensures "competition_open_since_year" !in Unavailable
    ensures "promo2_since_week" in MergedSnakeLabels && "promo2_since_week" != "open" && "promo2_since_week" !in Unavailable
    ensures "promo2_since_year" in MergedSnakeLabels && "promo2_since_year" != "open" && "promo2_since_year" !in Unavailable
  {
    assert MergedSnakeLabels[11] == "competition_open_since_month" && MergedSnakeLabels[12] == "competition_open_since_year";
    assert MergedSnakeLabels[14] == "promo2_since_week" && MergedSnakeLabels[15] == "promo2_since_year";
  }

  lemma DateSources()
    ensures "day_of_week" in MergedSnakeLabels && "day_of_week" != "open" && "day_of_week" !in Unavailable
    ensures "day_of_month" in DerivedLabels && "day_of_month" !in Unavailable
    ensures "day_of_year" in DerivedLabels && "day_of_year" !in Unavailable
    ensures "month" in DerivedLabels && "month" !in Unavailable
  {
    assert MergedSnakeLabels[2] == "day_of_week";
  }

  lemma ReachedOne(t: Table, d: string)
    requires Labelled(t) && ReachesPreparation(t.columns) && PrepareStart(t).outcome.Pass?
    requires ((d in MergedSnakeLabels && d != "open") || d in DerivedLabels) && d !in Unavailable
    ensures d in PrepareStart(t).table.columns
  {
  }

  /** After the loop over labels that include those the selection reads,
      every selected label is there. */
  lemma SelectedReached(cols: seq<string>)
    requires && "store" in cols && "store_type" in cols && "assortment" in cols && "competition_distance" in cols
      && "competition_open_since_month" in cols && "competition_open_since_year" in cols
      && "promo2_since_week" in cols && "promo2_since_year" in cols
      && "day_of_month" in cols && "day_of_year" in cols && "month" in cols && "day_of_week" in cols
    ensures forall x :: x in Selected ==> x in NonCyclic(cols) + Pairs(cols)
  {
    var kept := ["store", "store_type", "assortment", "competition_distance",
      "competition_open_since_month", "competition_open_since_year", "promo2_since_week", "promo2_since_year"];
    var cyclic := ["day_of_month", "day_of_year", "month", "day_of_week"];
    forall k | 0 <= k < |kept|
      ensures kept[k] in NonCyclic(cols)
    {
      NonCyclicHas(cols, kept[k]);
    }
    forall k | 0 <= k < |cyclic|
      ensures cyclic[k] + "_sin" in Pairs(cols) && cyclic[k] + "_cos" in Pairs(cols)
    {
      PairsHas(cols, cyclic[k]);
    }
    forall i | 0 <= i < |Selected|
      ensures Selected[i] in NonCyclic(cols) + Pairs(cols)
    {
      if i < 8 {
        assert Selected[i] == kept[i];
      } else if i == 8 {
        assert Selected[i] == cyclic[0] + "_sin";
      } else if i == 9 {
        assert Selected[i] == cyclic[0] + "_cos";
      } else if i == 10 {
        assert Selected[i] == cyclic[1] + "_sin";
      } else if i == 11 {
        assert Selected[i] == cyclic[1] + "_cos";
      } else if i == 12 {
        assert Selected[i] == cyclic[2] + "_cos";
      } else if i == 13 {
        assert Selected[i] == cyclic[3] + "_sin";
      } else {
        assert Selected[i] == cyclic[3] + "_cos";
      }
    }
  }

  /** For a merged request, data_preparation succeeds exactly when every
      column left after the opening drop has cells its iteration accepts:
      the selection of the 15 labels never fails. */
  lemma MergedRequestPrepares(tr: Transformers, nm: Numerics, t: Table)
    requires Labelled(t) && ReachesPreparation(t.columns)
    ensures PrepareStart(t).outcome.Pass?
    ensures Prepare(tr, nm, t).Ok? <==>
      forall c :: c in PrepareStart(t).table.columns ==> ColumnPrepares(tr, c, Column(PrepareStart(t).table, c))
  {
    ReachedFresh(t.columns);
    ReachedStart(t.columns);
    var s := PrepareStart(t);
    PrepareOutcome(tr, nm, t);
    var fin := PrepareColumns(tr, nm, s.table.columns, s.table);
    if fin.outcome.Pass? {
      PrepareInPlaceShape(tr, nm, t);
      ReachedKept(t);
      SelectedReached(s.table.columns);
      PrepareFinish(tr, nm, t, s.table, fin);
    }
  }

  // ---------------------------------------------------------------------
  // A table without rows

  /** On a table without rows, a loop that finishes visited no imputed or
      scaled column. */
  lemma {:induction false} PrepareColumnsNoRows(tr: Transformers, nm: Numerics, cs: seq<string>, t: Table)
    requires Labelled(t) && |t.rows| == 0 && PrepareColumns(tr, nm, cs, t).outcome.Pass?
    ensures forall c :: c in cs ==> !Fitted(tr, c)
    decreases |cs|
  {
    if cs != [] {
      var s := PrepareColumn(tr, nm, cs[0], t);
      PrepareColumnsNoRows(tr, nm, cs[1..], s.table);
      assert forall c :: c in cs ==> c == cs[0] || c in cs[1..];
    }
  }

  /** A label after a loop that finishes either ends in _sin or _cos or was
      there before the loop. */
  lemma {:induction false} PrepareColumnsOrigin(tr: Transformers, nm: Numerics, cs: seq<string>, t: Table, d: string)
    requires Labelled(t) && PrepareColumns(tr, nm, cs, t).outcome.Pass?
    requires d in PrepareColumns(tr, nm, cs, t).table.columns && !EndsWithTrig(d)
    ensures d in t.columns
    decreases |cs|
  {
    if cs != [] {
      var c := cs[0];
      assert c in t.columns;
      var s := PrepareColumn(tr, nm, c, t).table;
      PrepareColumnsOrigin(tr, nm, cs[1..], s, d);
      PrepareColumnLabels(tr, nm, c, t);
      if IsCyclic(c) {
        TrigLabels(c);
        var a := AddLabel(AddLabel(t.columns, c + "_sin"), c + "_cos");
        RemoveAtOrigin(a, IndexOf(t.columns, c), d);
      }
    }
  }

  lemma RemoveAtOrigin<T>(s: seq<T>, k: nat, d: T)
    requires k < |s| && d in RemoveAt(s, k)
    ensures d in s
  {
    var r := RemoveAt(s, k);
    var j :| 0 <= j < |r| && r[j] == d;
    assert d == s[j] || d == s[j + 1];
  }

  /** data_preparation never succeeds on a table without rows: the store
      column, which it must return, is scaled, and the scaler refuses an
      empty array. */
  lemma PreparedHasRows(tr: Transformers, nm: Numerics, t: Table)
    requires Labelled(t) && Prepare(tr, nm, t).Ok?
    ensures |t.rows| > 0
  {
    var s := PrepareStart(t);
    var fin := PrepareColumns(tr, nm, s.table.columns, s.table);
    StoreLookups(tr);
    assert "store" in fin.table.columns;
    PrepareColumnsOrigin(tr, nm, s.table.columns, s.table, "store");
    if |t.rows| == 0 {
      PrepareColumnsNoRows(tr, nm, s.table.columns, s.table);
    }
  }

  /** On a table without rows, the only error the loop can stop with is the
      refusal of an empty array. */
  lemma {:induction false} PrepareColumnsEmpty(tr: Transformers, nm: Numerics, cs: seq<string>, t: Table)
    requires Labelled(t) && |t.rows| == 0 && Distinct(cs) && forall c :: c in cs ==> c in t.columns && !EndsWithTrig(c)
    ensures PrepareColumns(tr, nm, cs, t).outcome.Fail? ==> PrepareColumns(tr, nm, cs, t).outcome.error == NoSamples
    decreases |cs|
  {
    if cs != [] {
      var h := cs[0];
      var s := PrepareColumn(tr, nm, h, t);
      TailOf(cs);
      if !Fitted(tr, h) {
        if IsCyclic(h) {
          PrepareColumnCyclic(tr, nm, h, t);
        } else {
          PrepareColumnCells(tr, nm, h, t);
        }
        forall c | c in cs[1..]
          ensures c in s.table.columns
        {
          PassOver(tr, nm, h, t, c);
        }
        PrepareColumnsEmpty(tr, nm, cs[1..], s.table);
      }
    }
  }

  /** A merged request with no row left to predict ends in the refusal of an
      empty array. */
  lemma MergedRequestNoRows(tr: Transformers, nm: Numerics, t: Table)
    requires Labelled(t) && ReachesPreparation(t.columns) && |t.rows| == 0
    ensures Prepare(tr, nm, t) == Err(NoSamples)
  {
    ReachedFresh(t.columns);
    MergedRequestPrepares(tr, nm, t);
    var s := PrepareStart(t);
    if Prepare(tr, nm, t).Ok? {
      PreparedHasRows(tr, nm, t);
    }
    var fin := PrepareColumns(tr, nm, s.table.columns, s.table);
    if fin.outcome.Pass? {
      PrepareColumnsPass(tr, nm, s.table.columns, s.table);
    }
    PrepareColumnsEmpty(tr, nm, s.table.columns, s.table);
  }

  /** The store column is only scaled: no imputer, bins, encoder or period. */
  lemma StoreLookups(tr: Transformers)
    ensures Imputer(tr, "store") == None && Scaler(tr, "store") == Some(tr.storeScaler)
    ensures Edges("store") == None && Encoder("store") == None && !IsCyclic("store")
    ensures "store" in Selected && "store" !in Unavailable && !EndsWithTrig("store")
    ensures forall v :: CellPipeline(tr, "store", v) == Ok(tr.storeScaler(v))
  {
    assert Selected[0] == "store";
  }

  /** The store column data_preparation returns is the scaled store column. */
  lemma StorePrepared(tr: Transformers, nm: Numerics, t: Table)
    requires Labelled(t) && "store" in t.columns && Prepare(tr, nm, t).Ok?
    ensures forall i :: 0 <= i < |t.rows| ==> Column(Prepare(tr, nm, t).value, "store")[i] == tr.storeScaler(Column(t, "store")[i])
  {
    StoreLookups(tr);
    PreparedCells(tr, nm, t, "store");
    assert Column(PrepareStart(t).table, "store") == Column(t, "store");
  }

  /** The assortment column is only encoded. */
  lemma AssortmentLookups(tr: Transformers)
    ensures "assortment" in Selected && "assortment" !in Unavailable
    ensures !IsCyclic("assortment") && !EndsWithTrig("assortment")
    ensures forall v :: CellPipeline(tr, "assortment", v) == Ok(EncodeAssortment(v))
  {
    assert Selected[2] == "assortment";
  }

  /** Every assortment cell the model sees is a code: a gives 0, b gives 2
      and anything else 1, since everything other than a and b is read as
      extended. */
  lemma AssortmentPrepared(tr: Transformers, nm: Numerics, t: Table)
    requires Labelled(t) && "assortment" in t.columns && Prepare(tr, nm, t).Ok?
    ensures forall i :: 0 <= i < |t.rows| ==>
      Column(Prepare(tr, nm, t).value, "assortment")[i]
        == (if Column(t, "assortment")[i] == Str("a") then Int(0) else if Column(t, "assortment")[i] == Str("b") then Int(2) else Int(1))
  {
    AssortmentLookups(tr);
    PreparedCells(tr, nm, t, "assortment");
    var q := Column(Prepare(tr, nm, t).value, "assortment");
    var raw := Column(t, "assortment");
    var relabelled := Column(PrepareStart(t).table, "assortment");
    assert relabelled == MapValues(RelabelAssortment, raw);
    forall i | 0 <= i < |t.rows|
      ensures q[i] == (if raw[i] == Str("a") then Int(0) else if raw[i] == Str("b") then Int(2) else Int(1))
    {
      assert CellPipeline(tr, "assortment", relabelled[i]) == Ok(q[i]);
      assert q[i] == EncodeAssortment(RelabelAssortment(raw[i]));
      AssortmentCode(raw[i]);
    }
  }

  /** The store number the response carries is the one the request carried,
      when the unscaler undoes the scaler. */
  lemma StoreRecovered(tr: Transformers, nm: Numerics, model: Table -> seq<Value>, t: Table)
    requires Labelled(t) && "store" in t.columns
    requires forall v :: tr.storeUnscaler(tr.storeScaler(v)) == v
    requires Prepare(tr, nm, t).Ok? && Predicted(tr, nm, model, Prepare(tr, nm, t).value).outcome.Pass?
    ensures Column(Predicted(tr, nm, model, Prepare(tr, nm, t).value).table, "store") == Column(t, "store")
  {
    var p := Prepare(tr, nm, t).value;
    StorePrepared(tr, nm, t);
    SelectedLabels();
    assert "store" in p.columns;
    var out := Predicted(tr, nm, model, p).table;
    assert Column(out, "store") == MapValues(tr.storeUnscaler, Column(p, "store"));
  }

  // ---------------------------------------------------------------------
  // get_prediction

  /** The prepared frame after the prediction step, which is also what it
      returns: predicted_sales added, store mapped back to store numbers.
      The inverse scaler refuses a frame without rows, after predicted_sales
      has been assigned. */
  function Predicted(tr: Transformers, nm: Numerics, model: Table -> seq<Value>, t: Table): (r: Staged)
    requires Labelled(t)
    ensures Labelled(r.table) && |r.table.rows| == |t.rows|
    ensures r.outcome.Pass? <==> |model(t)| == |t.rows| && "store" in AddLabel(t.columns, "predicted_sales") && |t.rows| > 0
    ensures |model(t)| == |t.rows| && "store" in AddLabel(t.columns, "predicted_sales") && |t.rows| == 0 ==>
      r.outcome == Fail(NoSamples)
    ensures r.outcome.Pass? ==> r.table.columns == AddLabel(t.columns, "predicted_sales")
    ensures r.outcome.Pass? ==> Column(r.table, "predicted_sales") == MapValues(nm.expm1, model(t))
    ensures r.outcome.Pass? && "store" in t.columns ==> Column(r.table, "store") == MapValues(tr.storeUnscaler, Column(t, "store"))
    ensures r.outcome.Pass? ==> forall d :: d in t.columns && d != "store" && d != "predicted_sales" ==> Column(r.table, d) == Column(t, d)
  {
    var preds := model(t);
    if |preds| != |t.rows| then Staged(t, Fail(LengthMismatch))
    else
      var t1 := SetColumn(t, "predicted_sales", MapValues(nm.expm1, preds));
      if "store" !in t1.columns then Staged(t1, Fail(KeyError("store")))
      else if |t1.rows| == 0 then Staged(t1, Fail(NoSamples))
      else Staged(SetColumn(t1, "store", MapValues(tr.storeUnscaler, Column(t1, "store"))), Pass)
  }

  // ---------------------------------------------------------------------
  // The stages on frames

  /** The Rossmann class: the fitted transformers it loads once, and the
      numerical library it calls. Each stage method changes its argument
      frame the way the stage function says. */
  class Pipeline {
    const tr: Transformers
    const nm: Numerics

    constructor (tr: Transformers, nm: Numerics)
      ensures this.tr == tr && this.nm == nm
    {
      this.tr := tr;
      this.nm := nm;
    }

    /** data_cleaning: renames, parses and imputes in place. */
    method DataCleaning(f: Frame) returns (o: Outcome)
      requires f.Valid()
      modifies f
      ensures f.Valid() && Staged(f.Contents(), o) == Clean(tr, old(f.Contents()))
    {
      var names := SnakeCaseAll(f.columns);
      if !Distinct(names) {
        return Fail(DuplicateLabels);
      }
      f.SetLabels(names);
      var dates := f.Get("date");
      if dates.Err? {
        return Fail(dates.error);
      }
      var parsed := MapResults(ParseDate, dates.value);
      if parsed.Err? {
        return Fail(parsed.error);
      }
      f.Assign("date", parsed.value);
      var distance := f.Get("competition_distance");
      if distance.Err? {
        return Fail(distance.error);
      }
      if |f.rows| == 0 {
        return Fail(NoSamples);
      }
      f.Assign("competition_distance", MapValues(tr.competitionDistanceImputer, distance.value));
      o := Pass;
    }

    /** feature_engineering: adds the date parts and remaps day_of_week in place. */
    method FeatureEngineering(f: Frame) returns (o: Outcome)
      requires f.Valid()
      modifies f
      ensures f.Valid() && Staged(f.Contents(), o) == Engineer(old(f.Contents()))
    {
      ghost var t0 := f.Contents();
      EngineerLabels();
      var dates := f.Get("date");
      if dates.Err? {
        return Fail(dates.error);
      }
      if !IsDateColumn(dates.value) {
        return Fail(NotDatetime);
      }
      f.Assign("day_of_month", MapValues(DayOfMonth, dates.value));
      ghost var t1 := f.Contents();
      dates := f.Get("date");
      f.Assign("day_of_year", MapValues(DayOfYearText, dates.value));
      var texts := f.Get("day_of_year");
      var days := MapResults(v => CastInt(v, "day_of_year"), texts.value);
      if days.Err? {
        return Fail(days.error);
      }
      f.Assign("day_of_year", days.value);
      assert Staged(f.Contents(), Pass) == DayOfYearStage(t1, Column(t0, "date"));
      dates := f.Get("date");
      f.Assign("month", MapValues(Month, dates.value));
      assert Staged(f.Contents(), Pass) == DateParts(t0, Column(t0, "date"));
      var week := f.Get("day_of_week");
      if week.Err? {
        return Fail(week.error);
      }
      f.Assign("day_of_week", MapValues(RemapDayOfWeek, week.value));
      o := Pass;
    }

    /** data_filtering: a new frame of the open rows without the open column;
        the argument frame is left as it was. */
    method DataFiltering(f: Frame) returns (r: Result<Frame>)
      requires f.Valid()
      ensures Filter(f.Contents()).Err? ==> r == Err(Filter(f.Contents()).error)
      ensures Filter(f.Contents()).Ok? ==> r.Ok? && fresh(r.value) && r.value.Valid()
      ensures Filter(f.Contents()).Ok? ==> r.Ok? && r.value.Contents() == Filter(f.Contents()).value
    {
      var open := f.RowsWhere("open", 1);
      if open.Err? {
        return Err(open.error);
      }
      var g := open.value;
      DropOne(g.Contents(), "open");
      var _ := g.Drop(["open"]);
      r := Ok(g);
    }

    /** Imputing, in place, when the column has a fitted imputer. */
    method ImputeInPlace(f: Frame, c: string)
      requires f.Valid() && c in f.columns
      modifies f
      ensures f.Valid() && f.Contents() == ImputeStep(tr, c, old(f.Contents()))
    {
      var col := f.Get(c);
      match Imputer(tr, c) {
        case Some(g) => f.Assign(c, MapValues(g, col.value));
        case None =>
      }
    }

    /** Rescaling, in place, when the column has a fitted scaler. */
    method ScaleInPlace(f: Frame, c: string)
      requires f.Valid() && c in f.columns
      modifies f
      ensures f.Valid() && f.Contents() == ScaleStep(tr, c, old(f.Contents()))
    {
      var col := f.Get(c);
      match Scaler(tr, c) {
        case Some(g) => f.Assign(c, MapValues(g, col.value));
        case None =>
      }
    }

    /** Discretization, in place, when the column has bins. */
    method BinInPlace(f: Frame, c: string) returns (o: Outcome)
      requires f.Valid() && c in f.columns
      modifies f
      ensures f.Valid()
      ensures BinStep(c, old(f.Contents())).Ok? ==> o == Pass && f.Contents() == BinStep(c, old(f.Contents())).value
      ensures BinStep(c, old(f.Contents())).Err? ==> o == Fail(BinStep(c, old(f.Contents())).error) && f.Contents() == old(f.Contents())
    {
      var col := f.Get(c);
      match Edges(c) {
        case Some(e) =>
          var bins := MapResults(v => BinValue(e, v, c), col.value);
          if bins.Err? {
            return Fail(bins.error);
          }
          f.Assign(c, bins.value);
        case None =>
      }
      o := Pass;
    }

    /** Encoding, in place, when the column has a category map. */
    method EncodeInPlace(f: Frame, c: string)
      requires f.Valid() && c in f.columns
      modifies f
      ensures f.Valid() && f.Contents() == EncodeStep(c, old(f.Contents()))
    {
      var col := f.Get(c);
      match Encoder(c) {
        case Some(g) => f.Assign(c, MapValues(g, col.value));
        case None =>
      }
    }

    /** The sine/cosine replacement, in place, for the cyclic columns. */
    method CyclicInPlace(f: Frame, c: string) returns (o: Outcome)
      requires f.Valid() && c in f.columns
      modifies f
      ensures f.Valid()
      ensures CyclicStep(nm, c, old(f.Contents())).Ok? ==> o == Pass && f.Contents() == CyclicStep(nm, c, old(f.Contents())).value
      ensures CyclicStep(nm, c, old(f.Contents())).Err? ==> o == Fail(CyclicStep(nm, c, old(f.Contents())).error) && f.Contents() == old(f.Contents())
    {
      var col := f.Get(c);
      match Period(c) {
        case Some(p) =>
          var sins := CyclicColumn(nm.sin, p, c, col.value);
          if sins.Err? {
            return Fail(sins.error);
          }
          var coss := CyclicColumn(nm.cos, p, c, col.value);
          if coss.Err? {
            return Fail(coss.error);
          }
          CyclicLabels(c);
          f.Assign(c + "_sin", sins.value);
          f.Assign(c + "_cos", coss.value);
          DropOne(f.Contents(), c);
          var _ := f.Drop([c]);
        case None =>
      }
      o := Pass;
    }

    /** One iteration of the column loop of data_preparation, in place. */
    method PrepareColumnStep(f: Frame, c: string) returns (o: Outcome)
      requires f.Valid()
      modifies f
      ensures f.Valid() && Staged(f.Contents(), o) == PrepareColumn(tr, nm, c, old(f.Contents()))
    {
      if c !in f.columns {
        return Fail(KeyError(c));
      }
      if Fitted(tr, c) && |f.rows| == 0 {
        return Fail(NoSamples);
      }
      ImputeInPlace(f, c);
      ScaleInPlace(f, c);
      o := BinInPlace(f, c);
      if o.Fail? {
        return;
      }
      EncodeInPlace(f, c);
      o := CyclicInPlace(f, c);
    }

    /** The assortment relabelling and the drop that open data_preparation. */
    method PrepareStartInPlace(f: Frame) returns (o: Outcome)
      requires f.Valid()
      modifies f
      ensures f.Valid() && Staged(f.Contents(), o) == PrepareStart(old(f.Contents()))
    {
      var assortment := f.Get("assortment");
      if assortment.Err? {
        return Fail(assortment.error);
      }
      f.Assign("assortment", MapValues(RelabelAssortment, assortment.value));
      o := f.Drop(Unavailable);
    }

    /** data_preparation: relabels, drops and transforms the argument frame
        in place, then returns a new frame of the selected columns. */
    method DataPreparation(f: Frame) returns (r: Result<Frame>)
      requires f.Valid()
      modifies f
      ensures f.Valid() && f.Contents() == PrepareInPlace(tr, nm, old(f.Contents())).table
      ensures Prepare(tr, nm, old(f.Contents())).Err? ==> r == Err(Prepare(tr, nm, old(f.Contents())).error)
      ensures Prepare(tr, nm, old(f.Contents())).Ok? ==> r.Ok? && fresh(r.value) && r.value.Valid()
      ensures Prepare(tr, nm, old(f.Contents())).Ok? ==> r.Ok? && r.value.Contents() == Prepare(tr, nm, old(f.Contents())).value
    {
      var started := PrepareStartInPlace(f);
      if started.Fail? {
        PrepareStops(tr, nm, old(f.Contents()));
        return Err(started.error);
      }
      ghost var t0 := f.Contents();
      var cols := f.columns;
      var i := 0;
      while i < |cols|
        invariant 0 <= i <= |cols| && f.Valid()
        invariant PrepareColumns(tr, nm, cols[i..], f.Contents()) == PrepareColumns(tr, nm, cols, t0)
        decreases |cols| - i
      {
        assert cols[i..][1..] == cols[i + 1..];
        ghost var before := f.Contents();
        var o := PrepareColumnStep(f, cols[i]);
        ColumnsStep(tr, nm, cols[i..], before, Staged(f.Contents(), o));
        if o.Fail? {
          PrepareFinish(tr, nm, old(f.Contents()), t0, Staged(f.Contents(), o));
          return Err(o.error);
        }
        i := i + 1;
      }
      assert cols[i..] == [];
      PrepareFinish(tr, nm, old(f.Contents()), t0, Staged(f.Contents(), Pass));
      SelectedLabels();
      r := f.SelectColumns(Selected);
    }

    /** get_prediction: adds predicted_sales and maps store back in the
        prepared frame, and returns that frame's records. */
    method GetPrediction(model: Table -> seq<Value>, f: Frame) returns (r: Result<Table>)
      requires f.Valid()
      modifies f
      ensures f.Valid() && f.Contents() == Predicted(tr, nm, model, old(f.Contents())).table
      ensures Predicted(tr, nm, model, old(f.Contents())).outcome.Pass? ==> r == Ok(f.Contents())
      ensures Predicted(tr, nm, model, old(f.Contents())).outcome.Fail? ==> r == Err(Predicted(tr, nm, model, old(f.Contents())).outcome.error)
    {
      var preds := model(f.Contents());
      if |preds| != |f.rows| {
        return Err(LengthMismatch);
      }
      f.Assign("predicted_sales", MapValues(nm.expm1, preds));
      var store := f.Get("store");
      if store.Err? {
        return Err(store.error);
      }
      if |f.rows| == 0 {
        return Err(NoSamples);
      }
      f.Assign("store", MapValues(tr.storeUnscaler, store.value));
      r := Ok(f.Contents());
    }
  }
}
