/** Cells of a record table, the errors the pipeline can raise, and the
    small failure-carrying wrappers used throughout. */
module Values {
  import opened Calendar

  datatype Option<T> = None | Some(value: T)

  /** One cell of a table, as the JSON request or a CSV file delivers it.
      `Missing` stands for None, NaN and NaT alike. */
  datatype Value =
    | Missing
    | Bool(b: bool)
    | Int(i: int)
    | Num(r: real)
    | Str(s: string)
    | Stamp(date: CalDate)

  /** The exceptions the modelled code raises, one constructor per cause. */
  datatype Error =
    | KeyError(name: string)         // a column label that the code indexes is absent
    | DuplicateLabels                // snake-casing would give two columns the same label
    | DateParseError(cell: Value)    // the text does not match %Y-%m-%d
    | OutOfBoundsDatetime(text: string) // a valid date outside the nanosecond timestamp range
    | NotDatetime                    // the .dt accessor on a column that is not datetime-like
    | IntCastOfMissing               // astype(int) of a missing value
    | NotNumeric(name: string)       // binning or sin/cos of a non-numeric cell
    | LengthMismatch                 // assigning a column of the wrong length
    | IndexError                     // values[0] of an empty selection
    | KeyNotFound(key: int)          // a dictionary lookup of an absent integer key
    | JsonDecodeError                // r.json() of a reply that is not JSON (the server's error page)
    | NoSamples                      // a fitted imputer or scaler given an array of 0 rows (ValueError)

  datatype Result<T> = Ok(value: T) | Err(error: Error)

  datatype Outcome = Pass | Fail(error: Error)

  /** The numeric reading of a cell, as Python arithmetic sees it
      (True is 1, False is 0); None for cells that are not numbers. */
  function AsReal(v: Value): (r: Option<real>)
    ensures r.Some? <==> (v.Bool? || v.Int? || v.Num?)
  {
    match v
    case Bool(b) => Some(if b then 1.0 else 0.0)
    case Int(i) => Some(i as real)
    case Num(x) => Some(x)
    case _ => None
  }

  /** Python's `v == k` for an integer literal k: true only for a number
      equal to k; never for a string, a date or a missing value. */
  predicate NumEquals(v: Value, k: int) {
    AsReal(v) == Some(k as real)
  }

  /** The values of a sequence of labelled values, in order: the values
      of a JSON record or of a pandas Series. */
  function PairValues<K>(ps: seq<(K, Value)>): (vs: seq<Value>)
    ensures |vs| == |ps| && forall j :: 0 <= j < |ps| ==> vs[j] == ps[j].1
  {
    seq(|ps|, j requires 0 <= j < |ps| => ps[j].1)
  }

  function MapValues(f: Value -> Value, vs: seq<Value>): (r: seq<Value>)
    ensures |r| == |vs|
    ensures forall i :: 0 <= i < |vs| ==> r[i] == f(vs[i])
  {
    seq(|vs|, i requires 0 <= i < |vs| => f(vs[i]))
  }

  /** A cell-wise conversion that can fail, applied down a column: the
      first cell that fails decides the error. */
  function MapResults(f: Value -> Result<Value>, vs: seq<Value>): (r: Result<seq<Value>>)
    ensures r.Ok? <==> forall i :: 0 <= i < |vs| ==> f(vs[i]).Ok?
    ensures r.Ok? ==> |r.value| == |vs| && forall i :: 0 <= i < |vs| ==> f(vs[i]) == Ok(r.value[i])
    ensures r.Err? ==> exists i :: 0 <= i < |vs| && f(vs[i]) == Err(r.error) && forall j :: 0 <= j < i ==> f(vs[j]).Ok?
  {
    if vs == [] then Ok([])
    else
      match f(vs[0])
      case Err(e) => Err(e)
      case Ok(v) =>
        match MapResults(f, vs[1..])
        case Err(e) =>
          ghost var i :| 0 <= i < |vs[1..]| && f(vs[1..][i]) == Err(e) && forall j :: 0 <= j < i ==> f(vs[1..][j]).Ok?;
          assert f(vs[i + 1]) == Err(e) && forall j :: 0 <= j < i + 1 ==> f(vs[j]).Ok?;
          Err(e)
        case Ok(rest) => Ok([v] + rest)
  }
}
