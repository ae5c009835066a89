/** The per-cell rules of the feature pipeline: date parsing, the derived
    date features, the day-of-week remap, the assortment relabelling, the
    categorical encodings and the fixed-bin discretization. */
module Features {
  import opened Values
  import opened Digits
  import opened Calendar

  // ---------------------------------------------------------------------
  // Dates: pd.to_datetime(column, format='%Y-%m-%d')

  /** The texts pandas reads as "not a time" rather than as a date. */
  predicate IsNaTText(s: string) {
    s in {"", "NaT", "nat", "NAT", "nan", "NaN", "NAN"}
  }

  /** A timestamp cell holds a real date that nanosecond timestamps can hold. */
  predicate IsTimestamp(d: CalDate) {
    IsCalendarDate(d) && InTimestampRange(d)
  }

  /** One cell of `pd.to_datetime(..., format='%Y-%m-%d')`. */
  function ParseDate(v: Value): (r: Result<Value>)
    ensures r.Ok? ==> r.value.Missing? || (r.value.Stamp? && IsTimestamp(r.value.date))
    ensures r.Ok? && r.value.Stamp? && v.Str? ==> FormatIsoDate(r.value.date) == v.s
    ensures v.Str? && IsIsoDateText(v.s) && InTimestampRange(ReadIsoDate(v.s)) ==> r == Ok(Stamp(ReadIsoDate(v.s)))
    ensures v.Str? && !IsNaTText(v.s) && !IsIsoDateText(v.s) ==> r == Err(DateParseError(v))
    ensures v.Str? && IsIsoDateText(v.s) && !InTimestampRange(ReadIsoDate(v.s)) ==> r == Err(OutOfBoundsDatetime(v.s))
    ensures v.Missing? || (v.Str? && IsNaTText(v.s)) ==> r == Ok(Missing)
    ensures v.Stamp? ==> (r == Ok(v) <==> IsTimestamp(v.date)) && (r.Err? <==> !IsTimestamp(v.date))
    ensures v.Int? || v.Num? || v.Bool? ==> r.Err?
  {
    match v
    case Missing => Ok(Missing)
    case Stamp(d) => if IsTimestamp(d) then Ok(v) else Err(DateParseError(v))
    case Str(s) =>
      if IsNaTText(s) then Ok(Missing)
      else if IsIsoDateText(s) then
        var d := ReadIsoDate(s);
        if InTimestampRange(d) then (FormatRead(s); Ok(Stamp(d))) else Err(OutOfBoundsDatetime(s))
      else Err(DateParseError(v))
    case _ => Err(DateParseError(v))
  }

  /** Every written date of the timestamp range parses back to itself. */
  lemma ParseFormattedDate(d: CalDate)
    requires IsTimestamp(d)
    ensures ParseDate(Str(FormatIsoDate(d))) == Ok(Stamp(d))
  {
    ReadFormat(d);
    var s := FormatIsoDate(d);
    assert !IsNaTText(s) by {
      assert |s| == 10;
    }
  }

  /** A datetime64 column: every cell a valid timestamp or NaT. */
  predicate IsDateColumn(vs: seq<Value>) {
    forall i :: 0 <= i < |vs| ==> vs[i].Missing? || (vs[i].Stamp? && IsTimestamp(vs[i].date))
  }

  /** The parsed column is a datetime64 column (every cell a timestamp or NaT). */
  lemma ParsedIsDateColumn(vs: seq<Value>)
    requires MapResults(ParseDate, vs).Ok?
    ensures IsDateColumn(MapResults(ParseDate, vs).value)
  {
    var ds := MapResults(ParseDate, vs).value;
    assert forall i :: 0 <= i < |vs| ==> ParseDate(vs[i]) == Ok(ds[i]);
  }

  // ---------------------------------------------------------------------
  // Date parts: .dt.day, .dt.strftime('%j') then astype(int), .dt.month

  function DayOfMonth(v: Value): Value {
    if v.Stamp? then Int(v.date.day) else Missing
  }

  function Month(v: Value): Value {
    if v.Stamp? then Int(v.date.month) else Missing
  }

  /** strftime('%j'): the ordinal date on three digits; NaT stays missing. */
  function DayOfYearText(v: Value): Value {
    if v.Stamp? && IsCalendarDate(v.date) then Str(Pad(DayOfYear(v.date), 3)) else Missing
  }

  /** astype(int) of one cell of the %j column. */
  function CastInt(v: Value, name: string): (r: Result<Value>)
    ensures r.Ok? ==> r.value.Int?
    ensures v.Missing? ==> r == Err(IntCastOfMissing)
  {
    match v
    case Missing => Err(IntCastOfMissing)
    case Int(_) => Ok(v)
    case Bool(b) => Ok(Int(if b then 1 else 0))
    case Str(s) => if |s| > 0 && AllDigits(s) then Ok(Int(Decimal(s))) else Err(NotNumeric(name))
    case _ => Err(NotNumeric(name))
  }

  /** For a timestamp the date parts are the calendar's: day 1..31, month
      1..12, and day of year 1..366 equal to the days of the preceding
      months plus the day of month. */
  lemma DatePartsOfTimestamp(d: CalDate, name: string)
    requires IsTimestamp(d)
    ensures DayOfMonth(Stamp(d)) == Int(d.day) && 1 <= d.day <= 31
    ensures Month(Stamp(d)) == Int(d.month) && 1 <= d.month <= 12
    ensures CastInt(DayOfYearText(Stamp(d)), name) == Ok(Int(DayOfYear(d)))
    ensures DayOfYear(d) == DaysBeforeMonth(d.year, d.month) + d.day
    ensures 1 <= DayOfYear(d) <= 366
  {
    DayOfYearIsOrdinal(d);
    assert Pow10(3) == 1000;
    DecimalOfPad(DayOfYear(d), 3);
  }

  /** The %j column of a date column casts to integers exactly when the
      column has no NaT. */
  lemma DayOfYearCastsWithoutNaT(vs: seq<Value>, name: string)
    requires IsDateColumn(vs)
    ensures MapResults(v => CastInt(v, name), MapValues(DayOfYearText, vs)).Ok?
        <==> forall i :: 0 <= i < |vs| ==> vs[i].Stamp?
  {
    var texts := MapValues(DayOfYearText, vs);
    forall i | 0 <= i < |vs| && vs[i].Stamp?
      ensures CastInt(texts[i], name).Ok?
    {
      DatePartsOfTimestamp(vs[i].date, name);
    }
    if exists i :: 0 <= i < |vs| && vs[i].Missing? {
      var i :| 0 <= i < |vs| && vs[i].Missing?;
      assert CastInt(texts[i], name).Err?;
    }
  }

  // ---------------------------------------------------------------------
  // day_of_week: `lambda x: 0 if x == 7 else x`

  function RemapDayOfWeek(v: Value): Value {
    if NumEquals(v, 7) then Int(0) else v
  }

  /** Seven becomes zero and every other cell is left as it was; on 1..7
      the remap is k mod 7, a bijection onto 0..6. */
  lemma RemapDayOfWeekRule(v: Value)
    ensures NumEquals(v, 7) ==> RemapDayOfWeek(v) == Int(0)
    ensures !NumEquals(v, 7) ==> RemapDayOfWeek(v) == v
    ensures v.Int? && 1 <= v.i <= 7 ==> RemapDayOfWeek(v) == Int(v.i % 7) && 0 <= v.i % 7 <= 6
  {
  }

  lemma RemapDayOfWeekInjective(j: int, k: int)
    requires 1 <= j <= 7 && 1 <= k <= 7 && j != k
    ensures RemapDayOfWeek(Int(j)) != RemapDayOfWeek(Int(k))
  {
    RemapDayOfWeekRule(Int(j));
    RemapDayOfWeekRule(Int(k));
  }

  // ---------------------------------------------------------------------
  // assortment and store_type

  /** a = basic, b = extra, anything else (c, a missing value, a typo) = extended. */
  function RelabelAssortment(v: Value): Value {
    if v == Str("a") then Str("basic") else if v == Str("b") then Str("extra") else Str("extended")
  }

  /** `.map({'a': 0, 'd': 1, 'c': 2, 'b': 3})`: an unmapped label is missing. */
  function EncodeStoreType(v: Value): (r: Value)
    ensures r.Missing? <==> v !in {Str("a"), Str("b"), Str("c"), Str("d")}
  {
    if v == Str("a") then Int(0)
    else if v == Str("d") then Int(1)
    else if v == Str("c") then Int(2)
    else if v == Str("b") then Int(3)
    else Missing
  }

  /** The inverse of the store type map on its codes. */
  function DecodeStoreType(v: Value): Value {
    if v == Int(0) then Str("a")
    else if v == Int(1) then Str("d")
    else if v == Int(2) then Str("c")
    else if v == Int(3) then Str("b")
    else Missing
  }

  /** The store type map is injective: the code of a known type decodes to it. */
  lemma StoreTypeRoundTrip(v: Value)
    requires !EncodeStoreType(v).Missing?
    ensures DecodeStoreType(EncodeStoreType(v)) == v
    ensures EncodeStoreType(v).Int? && 0 <= EncodeStoreType(v).i <= 3
  {
  }

  lemma StoreTypeCodesRoundTrip(k: int)
    requires 0 <= k <= 3
    ensures EncodeStoreType(DecodeStoreType(Int(k))) == Int(k)
  {
  }

  /** `.map({'basic': 0, 'extended': 1, 'extra': 2})`. */
  function EncodeAssortment(v: Value): Value {
    if v == Str("basic") then Int(0)
    else if v == Str("extended") then Int(1)
    else if v == Str("extra") then Int(2)
    else Missing
  }

  /** Relabelling then encoding sends a to 0, b to 2 and everything else to
      1; the encoded assortment is never missing. */
  lemma AssortmentCode(v: Value)
    ensures EncodeAssortment(RelabelAssortment(v)) == (if v == Str("a") then Int(0) else if v == Str("b") then Int(2) else Int(1))
    ensures !EncodeAssortment(RelabelAssortment(v)).Missing?
  {
  }

  // ---------------------------------------------------------------------
  // Cyclic features: np.sin / np.cos of x * (2 pi / period)

  /** One cell of the sine or cosine column, with the trigonometric function
      passed in as f(x, period); NaN stays NaN and text is a TypeError. */
  function CyclicValue(f: (real, nat) -> real, period: nat, v: Value, name: string): (r: Result<Value>)
    ensures r.Ok? <==> !(v.Str? || v.Stamp?)
    ensures r.Err? ==> r == Err(NotNumeric(name))
  {
    if v.Missing? then Ok(Missing)
    else match AsReal(v)
      case Some(x) => Ok(Num(f(x, period)))
      case None => Err(NotNumeric(name))
  }

  // ---------------------------------------------------------------------
  // Discretization: pd.cut(bins=edges), .codes, then / ((len(edges) - 2) / 2)

  const CompetitionOpenSinceYearEdges: seq<int> := [1989, 1990, 1995, 2000, 2005, 2008, 2010, 2012, 2014, 2016]
  const CompetitionDistanceEdges: seq<int> := [0, 50, 100, 500, 1000, 5000, 15000, 100000]

  predicate Increasing(edges: seq<int>) {
    forall i, j :: 0 <= i < j < |edges| ==> edges[i] < edges[j]
  }

  /** The number of edges strictly below x: where x would be inserted on the left. */
  function CountBelow(edges: seq<int>, x: real): (n: nat)
    ensures n <= |edges|
  {
    if edges == [] then 0 else (if (edges[0] as real) < x then 1 else 0) + CountBelow(edges[1..], x)
  }

  /** The code of the right-closed bin (edges[i], edges[i+1]] that holds
      x, or -1 when no bin holds it. */
  function BinCode(edges: seq<int>, x: real): int {
    var n := CountBelow(edges, x);
    if n == 0 || n == |edges| then -1 else n - 1
  }

  lemma {:induction false} CountBelowOfIncreasing(edges: seq<int>, x: real, i: nat)
    requires Increasing(edges) && i <= |edges|
    ensures CountBelow(edges, x) == i <==>
      (i == 0 || (edges[i - 1] as real) < x) && (i == |edges| || x <= edges[i] as real)
  {
    if edges != [] {
      var rest := edges[1..];
      assert Increasing(rest);
      CountBelowOfIncreasing(rest, x, 0);
      if (edges[0] as real) < x {
        if i > 0 {
          CountBelowOfIncreasing(rest, x, i - 1);
          if i >= 2 {
            assert rest[i - 2] == edges[i - 1];
          }
          if i < |edges| {
            assert rest[i - 1] == edges[i];
          }
        }
      } else {
        assert rest != [] ==> edges[0] < rest[0];
        if i > 0 {
          assert edges[0] <= edges[i - 1];
        }
      }
    }
  }

  /** The bin rule: code i exactly when edges[i] < x <= edges[i+1], and -1
      exactly when x is at or below the first edge or above the last. */
  lemma BinCodeBracket(edges: seq<int>, x: real, i: int)
    requires Increasing(edges) && |edges| >= 2 && 0 <= i < |edges| - 1
    ensures BinCode(edges, x) == i <==> (edges[i] as real) < x <= edges[i + 1] as real
    ensures BinCode(edges, x) == -1 <==> x <= edges[0] as real || (edges[|edges| - 1] as real) < x
  {
    CountBelowOfIncreasing(edges, x, i + 1);
    CountBelowOfIncreasing(edges, x, 0);
    CountBelowOfIncreasing(edges, x, |edges|);
  }

  lemma {:induction false} CountBelowMonotone(edges: seq<int>, x: real, y: real)
    requires x <= y
    ensures CountBelow(edges, x) <= CountBelow(edges, y)
  {
    if edges != [] {
      CountBelowMonotone(edges[1..], x, y);
    }
  }

  /** Within the range of the edges the code does not decrease as x grows. */
  lemma BinCodeMonotone(edges: seq<int>, x: real, y: real)
    requires x <= y && BinCode(edges, x) != -1 && BinCode(edges, y) != -1
    ensures BinCode(edges, x) <= BinCode(edges, y)
  {
    CountBelowMonotone(edges, x, y);
  }

  /** The divisor that takes codes 0 .. len(edges) - 2 onto [0, 2]. */
  function Divisor(edges: seq<int>): real {
    ((|edges| - 2) as real) / 2.0
  }

  /** The normalised code of a cell; a missing cell has code -1 too. */
  function BinValue(edges: seq<int>, v: Value, name: string): (r: Result<Value>)
    requires |edges| > 2
    ensures r.Ok? <==> !(v.Str? || v.Stamp?)
    ensures r.Ok? ==> r.value.Num?
  {
    if v.Missing? then Ok(Num(-1.0 / Divisor(edges)))
    else match AsReal(v)
      case Some(x) => Ok(Num((BinCode(edges, x) as real) / Divisor(edges)))
      case None => Err(NotNumeric(name))
  }

  /** In-range values normalise into [0, 2], the last bin to exactly 2;
      out-of-range and missing values give -1 over the divisor. */
  lemma BinValueRange(edges: seq<int>, x: real, name: string)
    requires Increasing(edges) && |edges| > 2
    ensures var r := BinValue(edges, Num(x), name).value.r;
      (BinCode(edges, x) == -1 ==> r == -1.0 / Divisor(edges))
      && (BinCode(edges, x) != -1 ==> 0.0 <= r <= 2.0)
      && ((edges[|edges| - 2] as real) < x <= edges[|edges| - 1] as real ==> r == 2.0)
  {
    var n := |edges|;
    BinCodeBracket(edges, x, n - 2);
    var c := BinCode(edges, x);
    assert c <= n - 2;
    var d := Divisor(edges);
    assert d > 0.0;
    if c != -1 {
      assert (c as real) <= (n - 2) as real;
      assert (c as real) / d <= ((n - 2) as real) / d;
      assert ((n - 2) as real) / d == 2.0;
    }
  }

  lemma BinConstants()
    ensures Increasing(CompetitionDistanceEdges) && Divisor(CompetitionDistanceEdges) == 3.0
    ensures Increasing(CompetitionOpenSinceYearEdges) && Divisor(CompetitionOpenSinceYearEdges) == 4.0
  {
  }

  /** A competition distance of exactly 0 lies in no bin: its code is -1,
      as is that of a distance over 100000. */
  lemma ZeroDistanceOutOfRange(x: real)
    requires x == 0.0 || x > 100000.0
    ensures BinCode(CompetitionDistanceEdges, x) == -1
  {
    BinConstants();
    BinCodeBracket(CompetitionDistanceEdges, x, 0);
  }
}
