/** The prediction endpoint: shaping the JSON body into a table, keeping a
    copy of it, and running the pipeline stages in their fixed order. */
module Handler {
  import opened Values
  import opened Tables
  import opened Frames
  import opened SnakeCase
  import opened Rossmann

  /** One JSON object: its keys in order, each with a scalar value. */
  type Record = seq<(string, Value)>

  /** What `request.get_json()` gives: nothing, one object or a list of objects. */
  datatype Body = NoBody | Object(fields: Record) | Array(records: seq<Record>)

  /** What the endpoint sends back: a literal response, the records of the
      prediction table (serialised by `to_json`), or the server error an
      uncaught exception turns into. */
  datatype Response = Plain(text: string, status: int, mimetype: string) | Records(table: Table) | ServerError(error: Error)

  function Keys(rec: Record): (ks: seq<string>)
    ensures |ks| == |rec| && forall j :: 0 <= j < |rec| ==> ks[j] == rec[j].0
  {
    seq(|rec|, j requires 0 <= j < |rec| => rec[j].0)
  }

  /** A parsed JSON object has each key once. */
  predicate WellFormedBody(b: Body) {
    match b
    case NoBody => true
    case Object(f) => Distinct(Keys(f))
    case Array(rs) => forall i :: 0 <= i < |rs| ==> Distinct(Keys(rs[i]))
  }

  /** `if test_json:` — None, an empty object and an empty list are false. */
  predicate Truthy(b: Body) {
    match b
    case NoBody => false
    case Object(f) => |f| > 0
    case Array(rs) => |rs| > 0
  }

  /** `record.get(k)`: the value under key k, or missing when k is absent. */
  function Lookup(rec: Record, k: string): (v: Value)
    ensures k !in Keys(rec) ==> v == Missing
    ensures Distinct(Keys(rec)) ==> forall j :: 0 <= j < |rec| && rec[j].0 == k ==> v == rec[j].1
  {
    if rec == [] then Missing
    else if rec[0].0 == k then rec[0].1
    else
      assert Keys(rec[1..]) == Keys(rec)[1..];
      Lookup(rec[1..], k)
  }

  /** The row a record gives under the labels cols. */
  function RowOf(rec: Record, cols: seq<string>): (row: seq<Value>)
    ensures |row| == |cols| && forall j :: 0 <= j < |cols| ==> row[j] == Lookup(rec, cols[j])
  {
    seq(|cols|, j requires 0 <= j < |cols| => Lookup(rec, cols[j]))
  }

  /** `pd.DataFrame(test_json, index=[0])` for an object, and
      `pd.DataFrame(test_json, columns=test_json[0].keys())` for a list: one
      row per record, the first record's keys as the labels, a missing cell
      where a record lacks a key and nothing from keys the first one lacks. */
  function ShapeBody(b: Body): (t: Table)
    requires Truthy(b) && WellFormedBody(b)
    ensures Labelled(t)
    ensures b.Object? ==> t.columns == Keys(b.fields) && t.rows == [PairValues(b.fields)]
    ensures b.Array? ==> t.columns == Keys(b.records[0]) && |t.rows| == |b.records|
    ensures b.Array? ==> forall i, j :: 0 <= i < |t.rows| && 0 <= j < |t.columns| ==> t.rows[i][j] == Lookup(b.records[i], t.columns[j])
  {
    match b
    case Object(f) => Table(Keys(f), [PairValues(f)])
    case Array(rs) =>
      var cols := Keys(rs[0]);
      Table(cols, seq(|rs|, i requires 0 <= i < |rs| => RowOf(rs[i], cols)))
  }

  /** `to_json(orient='records')` before serialisation: one record per row. */
  function ToRecords(t: Table): (rs: seq<Record>)
    requires WellFormed(t)
    ensures |rs| == |t.rows|
    ensures forall i :: 0 <= i < |t.rows| ==> Keys(rs[i]) == t.columns && PairValues(rs[i]) == t.rows[i]
  {
    seq(|t.rows|, i requires 0 <= i < |t.rows| => seq(|t.columns|, j requires 0 <= j < |t.columns| => (t.columns[j], t.rows[i][j])))
  }

  /** A table sent as a list of records comes back as the same table. */
  lemma ArrayRoundTrip(t: Table)
    requires Labelled(t) && |t.rows| > 0
    ensures Truthy(Array(ToRecords(t))) && WellFormedBody(Array(ToRecords(t)))
    ensures ShapeBody(Array(ToRecords(t))) == t
  {
    var rs := ToRecords(t);
    var s := ShapeBody(Array(rs));
    assert s.columns == t.columns;
    forall i | 0 <= i < |t.rows|
      ensures s.rows[i] == t.rows[i]
    {
      forall j | 0 <= j < |t.columns|
        ensures s.rows[i][j] == t.rows[i][j]
      {
        assert rs[i][j].0 == t.columns[j] && rs[i][j].1 == t.rows[i][j];
      }
    }
  }

  /** An object gives the one-row table whose only record is that object. */
  lemma ObjectRoundTrip(f: Record)
    requires |f| > 0 && Distinct(Keys(f))
    ensures ToRecords(ShapeBody(Object(f))) == [f]
  {
    var rs := ToRecords(ShapeBody(Object(f)));
    assert |rs| == 1 && |rs[0]| == |f|;
    forall j | 0 <= j < |f|
      ensures rs[0][j] == f[j]
    {
      assert rs[0][j].0 == Keys(rs[0])[j] == Keys(f)[j] == f[j].0;
      assert rs[0][j].1 == PairValues(rs[0])[j] == PairValues(f)[j] == f[j].1;
    }
    assert rs[0] == f;
  }

  /** The five stages, each on the previous one's output; the first one that
      raises ends the request with a server error. */
  function RunStages(tr: Transformers, nm: Numerics, model: Table -> seq<Value>, raw: Table): (r: Response)
    requires Labelled(raw)
    ensures !r.Plain?
    ensures Clean(tr, raw).outcome.Fail? ==> r == ServerError(Clean(tr, raw).outcome.error)
    ensures Clean(tr, raw).outcome.Pass? && Engineer(Clean(tr, raw).table).outcome.Fail? ==>
      r == ServerError(Engineer(Clean(tr, raw).table).outcome.error)
    ensures Clean(tr, raw).outcome.Pass? && Engineer(Clean(tr, raw).table).outcome.Pass? ==>
      var fl := Filter(Engineer(Clean(tr, raw).table).table);
      && (fl.Err? ==> r == ServerError(fl.error))
      && (fl.Ok? && Prepare(tr, nm, fl.value).Err? ==> r == ServerError(Prepare(tr, nm, fl.value).error))
      && (fl.Ok? && Prepare(tr, nm, fl.value).Ok? ==>
          var out := Predicted(tr, nm, model, Prepare(tr, nm, fl.value).value);
          r == if out.outcome.Pass? then Records(out.table) else ServerError(out.outcome.error))
  {
    var c := Clean(tr, raw);
    if c.outcome.Fail? then ServerError(c.outcome.error)
    else
      var e := Engineer(c.table);
      if e.outcome.Fail? then ServerError(e.outcome.error)
      else match Filter(e.table)
        case Err(err) => ServerError(err)
        case Ok(fl) => AfterFilter(tr, nm, model, fl)
  }

  /** Preparation and prediction on the filtered table. */
  function AfterFilter(tr: Transformers, nm: Numerics, model: Table -> seq<Value>, fl: Table): (r: Response)
    requires Labelled(fl)
    ensures !r.Plain?
    ensures r.Records? ==> Prepare(tr, nm, fl).Ok? && r.table == Predicted(tr, nm, model, Prepare(tr, nm, fl).value).table
    ensures Prepare(tr, nm, fl).Err? ==> r == ServerError(Prepare(tr, nm, fl).error)
    ensures Prepare(tr, nm, fl).Ok? ==>
      var out := Predicted(tr, nm, model, Prepare(tr, nm, fl).value);
      r == if out.outcome.Pass? then Records(out.table) else ServerError(out.outcome.error)
  {
    match Prepare(tr, nm, fl)
    case Err(err) => ServerError(err)
    case Ok(p) =>
      var out := Predicted(tr, nm, model, p);
      if out.outcome.Fail? then ServerError(out.outcome.error) else Records(out.table)
  }

  /** `rossmann_predict`. */
  function Respond(tr: Transformers, nm: Numerics, model: Table -> seq<Value>, b: Body): (r: Response)
    requires WellFormedBody(b)
    ensures r.Plain? <==> !Truthy(b)
    ensures r.Plain? ==> r == Plain("{}", 200, "application/json")
    ensures Truthy(b) ==> r == RunStages(tr, nm, model, ShapeBody(b))
  {
    if !Truthy(b) then Plain("{}", 200, "application/json")
    else RunStages(tr, nm, model, ShapeBody(b))
  }

  /** The `open` column comes out of feature engineering as it went in. */
  lemma EngineerKeepsOpen(t: Table)
    requires Labelled(t) && Engineer(t).outcome.Pass? && "open" in Engineer(t).table.columns
    ensures "open" in t.columns && Column(Engineer(t).table, "open") == Column(t, "open")
  {
    EngineerLabels();
    var cols := AddLabel(AddLabel(AddLabel(t.columns, "day_of_month"), "day_of_year"), "month");
    assert Engineer(t).table.columns == cols;
    assert "open" in t.columns by {
      assert "open" != "day_of_month" && "open" != "day_of_year" && "open" != "month";
    }
  }

  /** The `open` column comes out of cleaning as the renamed `open` column. */
  lemma CleanKeepsOpen(tr: Transformers, raw: Table)
    requires Labelled(raw) && Clean(tr, raw).outcome.Pass? && "open" in Clean(tr, raw).table.columns
    ensures WellFormed(SnakeCased(raw)) && "open" in SnakeCased(raw).columns
    ensures Column(Clean(tr, raw).table, "open") == Column(SnakeCased(raw), "open")
  {
  }

  /** A successful response carries the 15 prepared columns and the
      prediction, one row for each row of the request whose `open` cell
      (after renaming) is 1. */
  lemma RunStagesShape(tr: Transformers, nm: Numerics, model: Table -> seq<Value>, raw: Table)
    requires Labelled(raw) && RunStages(tr, nm, model, raw).Records?
    ensures RunStages(tr, nm, model, raw).table.columns == Selected + ["predicted_sales"]
    ensures WellFormed(SnakeCased(raw)) && "open" in SnakeCased(raw).columns
    ensures |RunStages(tr, nm, model, raw).table.rows| == CountEq(Column(SnakeCased(raw), "open"), 1)
    ensures CountEq(Column(SnakeCased(raw), "open"), 1) > 0
  {
    var c := Clean(tr, raw).table;
    var e := Engineer(c).table;
    var fl := Filter(e).value;
    var p := Prepare(tr, nm, fl).value;
    PreparedHasRows(tr, nm, fl);
    SelectedLabels();
    assert AddLabel(Selected, "predicted_sales") == Selected + ["predicted_sales"];
    EngineerKeepsOpen(c);
    CleanKeepsOpen(tr, raw);
    assert |fl.rows| == CountEq(Column(e, "open"), 1);
  }

  /** The row count of a successful response, from the request's own labels:
      the rows whose `Open` cell is 1. */
  lemma RespondRows(tr: Transformers, nm: Numerics, model: Table -> seq<Value>, b: Body, k: nat)
    requires WellFormedBody(b) && Respond(tr, nm, model, b).Records?
    requires k < |ShapeBody(b).columns| && ShapeBody(b).columns[k] == "Open"
    ensures |Respond(tr, nm, model, b).table.rows| == CountEq(Column(ShapeBody(b), "Open"), 1)
    ensures |Respond(tr, nm, model, b).table.rows| > 0
  {
    var raw := ShapeBody(b);
    RunStagesShape(tr, nm, model, raw);
    OpenRenamed();
    assert SnakeCased(raw).columns[k] == "open";
    IndexOfDistinct(raw.columns, k);
    IndexOfDistinct(SnakeCased(raw).columns, k);
    assert Column(SnakeCased(raw), "open") == Column(raw, "Open");
  }

  /** A merged test/store request none of whose rows is open reaches
      data_preparation with no row, and the reply is the server error of
      the refused empty array. */
  lemma NoOpenRowsFails(tr: Transformers, nm: Numerics, model: Table -> seq<Value>, raw: Table)
    requires Labelled(raw) && raw.columns == MergedLabels
    requires Clean(tr, raw).outcome.Pass? && Engineer(Clean(tr, raw).table).outcome.Pass?
    requires WellFormed(SnakeCased(raw)) && "open" in SnakeCased(raw).columns
    requires CountEq(Column(SnakeCased(raw), "open"), 1) == 0
    ensures RunStages(tr, nm, model, raw) == ServerError(NoSamples)
  {
    var c := Clean(tr, raw).table;
    var e := Engineer(c).table;
    MergedRequestReaches(tr, raw);
    var fl := Filter(e).value;
    EngineerKeepsOpen(c);
    CleanKeepsOpen(tr, raw);
    assert |fl.rows| == CountEq(Column(e, "open"), 1);
    MergedRequestNoRows(tr, nm, fl);
  }

  /** The stage chain on the request frame: cleaning and engineering change
      it in place, the later stages work on the frames they return. */
  method RunPipeline(pipeline: Pipeline, model: Table -> seq<Value>, raw: Frame) returns (r: Response)
    requires raw.Valid()
    modifies raw
    ensures r == RunStages(pipeline.tr, pipeline.nm, model, old(raw.Contents()))
  {
    ghost var t0 := raw.Contents();
    var o := pipeline.DataCleaning(raw);
    if o.Fail? {
      return ServerError(o.error);
    }
    ghost var t1 := raw.Contents();
    assert Clean(pipeline.tr, t0) == Staged(t1, Pass);
    o := pipeline.FeatureEngineering(raw);
    if o.Fail? {
      return ServerError(o.error);
    }
    assert Engineer(t1) == Staged(raw.Contents(), Pass);
    r := RunLater(pipeline, model, raw);
  }

  /** Filtering, preparation and prediction, each on the previous result. */
  method RunLater(pipeline: Pipeline, model: Table -> seq<Value>, f: Frame) returns (r: Response)
    requires f.Valid()
    ensures Filter(f.Contents()).Err? ==> r == ServerError(Filter(f.Contents()).error)
    ensures Filter(f.Contents()).Ok? ==> r == AfterFilter(pipeline.tr, pipeline.nm, model, Filter(f.Contents()).value)
  {
    var filtered := pipeline.DataFiltering(f);
    if filtered.Err? {
      return ServerError(filtered.error);
    }
    var prepared := pipeline.DataPreparation(filtered.value);
    if prepared.Err? {
      return ServerError(prepared.error);
    }
    var predicted := pipeline.GetPrediction(model, prepared.value);
    if predicted.Err? {
      return ServerError(predicted.error);
    }
    r := Records(predicted.value);
  }

  /** `rossmann_predict` step by step: the request table is copied before
      the cleaning stage renames it in place, so the copy keeps the request
      as sent. The copy is returned beside the response. */
  method RossmannPredict(tr: Transformers, nm: Numerics, model: Table -> seq<Value>, b: Body) returns (r: Response, original: Frame?)
    requires WellFormedBody(b)
    ensures r == Respond(tr, nm, model, b)
    ensures original != null <==> Truthy(b)
    ensures original != null ==> fresh(original) && original.Contents() == ShapeBody(b)
  {
    if !Truthy(b) {
      return Plain("{}", 200, "application/json"), null;
    }
    var raw := new Frame(ShapeBody(b));
    original := raw.Copy();
    var pipeline := new Pipeline(tr, nm);
    r := RunPipeline(pipeline, model, raw);
  }
}
