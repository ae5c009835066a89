/** The column renaming of the cleaning stage:
    `'_'.join(re.findall('([A-Z][a-z0-9]+)', column)).lower()`. */
module SnakeCase {

  predicate IsUpper(c: char) {
    'A' <= c <= 'Z'
  }

  predicate IsLowerOrDigit(c: char) {
    ('a' <= c <= 'z') || ('0' <= c <= '9')
  }

  /** A match of the pattern [A-Z][a-z0-9]+. */
  predicate IsWord(w: string) {
    |w| >= 2 && IsUpper(w[0]) && forall k :: 1 <= k < |w| ==> IsLowerOrDigit(w[k])
  }

  /** The end of the run of [a-z0-9] characters that starts at i. */
  function RunEnd(s: string, i: nat): (j: nat)
    requires i <= |s|
    ensures i <= j <= |s|
    ensures forall k :: i <= k < j ==> IsLowerOrDigit(s[k])
    ensures j < |s| ==> !IsLowerOrDigit(s[j])
    decreases |s| - i
  {
    if i < |s| && IsLowerOrDigit(s[i]) then RunEnd(s, i + 1) else i
  }

  /** re.findall of [A-Z][a-z0-9]+: scan from the left; where an upper-case
      letter is followed by a lower-case letter or digit, take the longest
      match and continue after it; elsewhere move on by one character. */
  function Segments(s: string): (ws: seq<string>)
    ensures forall k :: 0 <= k < |ws| ==> IsWord(ws[k])
    decreases |s|
  {
    if |s| < 2 then []
    else if IsUpper(s[0]) && IsLowerOrDigit(s[1]) then
      var j := RunEnd(s, 2);
      [s[..j]] + Segments(s[j..])
    else Segments(s[1..])
  }

  function Join(ws: seq<string>): string {
    if ws == [] then "" else if |ws| == 1 then ws[0] else ws[0] + "_" + Join(ws[1..])
  }

  function LowerChar(c: char): char {
    if IsUpper(c) then (c as int + 32) as char else c
  }

  function Lower(s: string): (r: string)
    ensures |r| == |s| && forall k :: 0 <= k < |s| ==> r[k] == LowerChar(s[k])
  {
    seq(|s|, k requires 0 <= k < |s| => LowerChar(s[k]))
  }

  function SnakeCase(column: string): string {
    Lower(Join(Segments(column)))
  }

  /** `df.columns = [... for column in df.columns]`: each label renamed. */
  function SnakeCaseAll(columns: seq<string>): seq<string> {
    seq(|columns|, k requires 0 <= k < |columns| => SnakeCase(columns[k]))
  }

  function Concat(ws: seq<string>): string {
    if ws == [] then "" else ws[0] + Concat(ws[1..])
  }

  /** ws occur in s from left to right, without overlapping. */
  ghost predicate OccursInOrder(ws: seq<string>, s: string)
    decreases |ws|, 1
  {
    ws == [] || exists i :: OccursAt(ws, s, i)
  }

  /** The first of ws occurs in s at position i, and the rest after it. */
  ghost predicate OccursAt(ws: seq<string>, s: string, i: int)
    decreases |ws|, 0
  {
    ws != [] && 0 <= i && i + |ws[0]| <= |s| && s[i..i + |ws[0]|] == ws[0]
    && OccursInOrder(ws[1..], s[i + |ws[0]|..])
  }

  /** The snake-case alphabet: lower-case letters, digits and single `_`
      separators, with no `_` at either end. */
  predicate IsSnake(r: string) {
    && (forall k :: 0 <= k < |r| ==> IsLowerOrDigit(r[k]) || r[k] == '_')
    && (|r| > 0 ==> r[0] != '_' && r[|r| - 1] != '_')
    && (forall k :: 0 <= k < |r| - 1 ==> !(r[k] == '_' && r[k + 1] == '_'))
  }

  /** The segments are taken from the column name in source order. */
  lemma {:induction false} SegmentsInOrder(s: string)
    ensures OccursInOrder(Segments(s), s)
    decreases |s|
  {
    if |s| < 2 {
    } else if IsUpper(s[0]) && IsLowerOrDigit(s[1]) {
      var j := RunEnd(s, 2);
      SegmentsInOrder(s[j..]);
      var ws := Segments(s);
      assert ws[0] == s[..j] && ws[1..] == Segments(s[j..]);
      assert OccursAt(ws, s, 0);
    } else {
      SegmentsInOrder(s[1..]);
      var ws := Segments(s);
      if ws != [] {
        var i :| OccursAt(ws, s[1..], i);
        assert s[i + 1..i + 1 + |ws[0]|] == ws[0];
        assert s[1..][i + |ws[0]|..] == s[i + 1 + |ws[0]|..];
        assert OccursAt(ws, s, i + 1);
      }
    }
  }

  /** A match of [A-Z][a-z0-9]+ can start at position i of s. */
  predicate StartsWord(s: string, i: int) {
    0 <= i && i + 1 < |s| && IsUpper(s[i]) && IsLowerOrDigit(s[i + 1])
  }

  /** Every place where a match can start yields the longest match there:
      no segment of the name is skipped or cut short. */
  lemma {:induction false} SegmentsComplete(s: string, i: int)
    requires StartsWord(s, i)
    ensures s[i..RunEnd(s, i + 1)] in Segments(s)
    decreases |s|
  {
    if StartsWord(s, 0) {
      var j := RunEnd(s, 1);
      SegmentsAtMatch(s);
      if i == 0 {
      } else {
        NoStartInsideRun(s, i);
        SuffixMatch(s, j, i);
        SegmentsComplete(s[j..], i - j);
      }
    } else {
      SegmentsPassOver(s);
      SuffixMatch(s, 1, i);
      SegmentsComplete(s[1..], i - 1);
    }
  }

  /** Segments of a name that starts with a match. */
  lemma SegmentsAtMatch(s: string)
    requires StartsWord(s, 0)
    ensures Segments(s) == [s[..RunEnd(s, 1)]] + Segments(s[RunEnd(s, 1)..])
  {
    assert RunEnd(s, 1) == RunEnd(s, 2);
  }

  /** Segments of a name that does not start with a match. */
  lemma SegmentsPassOver(s: string)
    requires |s| > 0 && !StartsWord(s, 0)
    ensures Segments(s) == Segments(s[1..])
  {
  }

  /** No match starts inside the first match. */
  lemma NoStartInsideRun(s: string, i: int)
    requires StartsWord(s, 0) && StartsWord(s, i) && i > 0
    ensures RunEnd(s, 1) <= i
  {
  }

  /** A match of s at i is a match of s[d..] at i - d, with the same text. */
  lemma SuffixMatch(s: string, d: nat, i: int)
    requires StartsWord(s, i) && d <= i
    ensures StartsWord(s[d..], i - d)
    ensures s[d..][i - d..RunEnd(s[d..], i - d + 1)] == s[i..RunEnd(s, i + 1)]
  {
    RunEndShift(s, d, i + 1);
  }

  /** w is the longest match at some place of s where a match can start. */
  ghost predicate IsMatchOf(s: string, w: string) {
    exists i :: StartsWord(s, i) && w == s[i..RunEnd(s, i + 1)]
  }

  /** Every segment is the longest match at some place where a match can
      start: nothing but those matches is picked up. */
  lemma {:induction false} SegmentsSound(s: string)
    ensures forall k :: 0 <= k < |Segments(s)| ==> IsMatchOf(s, Segments(s)[k])
    decreases |s|
  {
    if |s| < 2 {
    } else if StartsWord(s, 0) {
      var j := RunEnd(s, 1);
      SegmentsAtMatch(s);
      SegmentsSound(s[j..]);
      var ws := Segments(s);
      forall k | 0 <= k < |ws|
        ensures IsMatchOf(s, ws[k])
      {
        if k == 0 {
          assert StartsWord(s, 0) && ws[0] == s[0..RunEnd(s, 1)];
        } else {
          assert ws[k] == Segments(s[j..])[k - 1];
          MatchAfter(s, j, ws[k]);
        }
      }
    } else {
      SegmentsPassOver(s);
      SegmentsSound(s[1..]);
      var ws := Segments(s);
      forall k | 0 <= k < |ws|
        ensures IsMatchOf(s, ws[k])
      {
        MatchAfter(s, 1, ws[k]);
      }
    }
  }

  /** A match of s[d..] is a match of s. */
  lemma MatchAfter(s: string, d: nat, w: string)
    requires d <= |s| && IsMatchOf(s[d..], w)
    ensures IsMatchOf(s, w)
  {
    var i :| StartsWord(s[d..], i) && w == s[d..][i..RunEnd(s[d..], i + 1)];
    PrefixMatch(s, d, i);
  }

  /** A match of s[d..] at i is a match of s at i + d, with the same text. */
  lemma PrefixMatch(s: string, d: nat, i: int)
    requires d <= |s| && StartsWord(s[d..], i)
    ensures StartsWord(s, i + d)
    ensures s[d..][i..RunEnd(s[d..], i + 1)] == s[i + d..RunEnd(s, i + d + 1)]
  {
    assert s[d..][i] == s[i + d] && s[d..][i + 1] == s[i + d + 1];
    RunEndShift(s, d, i + d + 1);
  }

  /** The run ends at the same place whether a prefix of d characters is
      dropped first or not. */
  lemma {:induction false} RunEndShift(s: string, d: nat, i: nat)
    requires d <= i <= |s|
    ensures RunEnd(s[d..], i - d) == RunEnd(s, i) - d
    decreases |s| - i
  {
    if i < |s| && IsLowerOrDigit(s[i]) {
      assert s[d..][i - d] == s[i];
      RunEndShift(s, d, i + 1);
    }
  }

  /** A Pascal-case name built from words gives back exactly those words:
      each word is kept whole, and no other text is picked up. */
  lemma {:induction false} SegmentsOfConcat(ws: seq<string>)
    requires forall k :: 0 <= k < |ws| ==> IsWord(ws[k])
    ensures Segments(Concat(ws)) == ws
  {
    if ws != [] {
      var w, rest := ws[0], Concat(ws[1..]);
      var s := w + rest;
      assert IsUpper(s[0]) && IsLowerOrDigit(s[1]);
      assert rest != [] ==> IsUpper(ws[1][0]) && rest[0] == ws[1][0] by {
        if rest != [] {
          assert ws[1..] != [];
          assert Concat(ws[1..]) == ws[1] + Concat(ws[2..]);
        }
      }
      RunEndOfWord(w, rest, 2);
      assert s[..|w|] == w && s[|w|..] == rest;
      SegmentsOfConcat(ws[1..]);
    }
  }

  lemma {:induction false} RunEndOfWord(w: string, rest: string, i: nat)
    requires IsWord(w) && 1 <= i <= |w|
    requires rest != [] ==> !IsLowerOrDigit(rest[0])
    ensures RunEnd(w + rest, i) == |w|
    decreases |w| - i
  {
    if i < |w| {
      RunEndOfWord(w, rest, i + 1);
    }
  }

  /** Upper-case and lower-case letters, digits and single inner `_`: the
      shape of joined words before lowering. */
  predicate IsJoinedShape(s: string) {
    && (forall k :: 0 <= k < |s| ==> IsUpper(s[k]) || IsLowerOrDigit(s[k]) || s[k] == '_')
    && (|s| > 0 ==> s[0] != '_' && s[|s| - 1] != '_')
    && (forall k :: 0 <= k < |s| - 1 ==> !(s[k] == '_' && s[k + 1] == '_'))
  }

  /** Words may be joined with `_` and lowered freely: the result is snake case. */
  lemma {:induction false} JoinedWordsAreSnake(ws: seq<string>)
    requires forall k :: 0 <= k < |ws| ==> IsWord(ws[k])
    ensures IsSnake(Lower(Join(ws)))
    ensures IsJoinedShape(Join(ws)) && (|ws| > 0 ==> |Join(ws)| > 0)
  {
    if |ws| > 1 {
      JoinedWordsAreSnake(ws[1..]);
      JoinWordShape(ws[0], Join(ws[1..]));
    }
    LowerKeepsSnakeShape(Join(ws));
  }

  /** A word, `_`, then a non-empty joined tail keeps the joined shape. */
  lemma JoinWordShape(w: string, tail: string)
    requires IsWord(w) && IsJoinedShape(tail) && |tail| > 0
    ensures IsJoinedShape(w + "_" + tail)
  {
    var j := w + "_" + tail;
    forall k | 0 <= k < |j| - 1
      ensures !(j[k] == '_' && j[k + 1] == '_')
    {
      if k + 1 < |w| {
        assert j[k + 1] == w[k + 1];
      } else if k + 1 == |w| {
        assert j[k] == w[k];
      } else if k == |w| {
        assert j[k + 1] == tail[0];
      } else {
        assert j[k] == tail[k - |w| - 1] && j[k + 1] == tail[k - |w|];
      }
    }
    forall k | 0 <= k < |j|
      ensures IsUpper(j[k]) || IsLowerOrDigit(j[k]) || j[k] == '_'
    {
      if k < |w| {
        assert j[k] == w[k];
      } else if k > |w| {
        assert j[k] == tail[k - |w| - 1];
      }
    }
    assert j[|j| - 1] == tail[|tail| - 1];
  }

  lemma LowerKeepsSnakeShape(s: string)
    requires IsJoinedShape(s)
    ensures IsSnake(Lower(s))
  {
  }

  /** Every renamed column is in snake case. */
  lemma SnakeCaseIsSnake(column: string)
    ensures IsSnake(SnakeCase(column))
  {
    JoinedWordsAreSnake(Segments(column));
  }

  /** A name with no upper-case letter (one already in snake case, say)
      renames to the empty label. */
  lemma {:induction false} NoUpperGivesEmpty(column: string)
    requires forall k :: 0 <= k < |column| ==> !IsUpper(column[k])
    ensures SnakeCase(column) == ""
    decreases |column|
  {
    if |column| >= 2 {
      NoUpperGivesEmpty(column[1..]);
    }
  }

  // ---------------------------------------------------------------------
  // The labels of test.csv merged with store.csv

  /** A label of one to four words renames to those words joined by `_`
      and lowered (RenameWord, RenameWords2, RenameWords3, RenameWords4). */
  lemma RenameWord(a: string, column: string, snake: string)
    requires IsWord(a) && column == a && snake == Lower(a)
    ensures SnakeCase(column) == snake
  {
    ConcatJoin1(a);
    SegmentsOfConcat([a]);
  }

  lemma RenameWords2(a: string, b: string, column: string, snake: string)
    requires IsWord(a) && IsWord(b) && column == a + b && snake == Lower(a + "_" + b)
    ensures SnakeCase(column) == snake
  {
    ConcatJoin2(a, b);
    SegmentsOfConcat([a, b]);
  }

  lemma RenameWords3(a: string, b: string, c: string, column: string, snake: string)
    requires IsWord(a) && IsWord(b) && IsWord(c) && column == a + b + c && snake == Lower(a + "_" + b + "_" + c)
    ensures SnakeCase(column) == snake
  {
    ConcatJoin3(a, b, c);
    SegmentsOfConcat([a, b, c]);
  }

  lemma RenameWords4(a: string, b: string, c: string, d: string, column: string, snake: string)
    requires IsWord(a) && IsWord(b) && IsWord(c) && IsWord(d)
    requires column == a + b + c + d && snake == Lower(a + "_" + b + "_" + c + "_" + d)
    ensures SnakeCase(column) == snake
  {
    ConcatJoin4(a, b, c, d);
    SegmentsOfConcat([a, b, c, d]);
  }

  lemma ConcatJoin1(a: string)
    ensures Concat([a]) == a && Join([a]) == a
  {
    assert [a][1..] == [];
  }

  lemma ConcatJoin2(a: string, b: string)
    ensures Concat([a, b]) == a + b && Join([a, b]) == a + "_" + b
  {
    assert [a, b][1..] == [b];
    ConcatJoin1(b);
  }

  lemma ConcatJoin3(a: string, b: string, c: string)
    ensures Concat([a, b, c]) == a + b + c && Join([a, b, c]) == a + "_" + b + "_" + c
  {
    assert [a, b, c][1..] == [b, c];
    ConcatJoin2(b, c);
  }

  lemma ConcatJoin4(a: string, b: string, c: string, d: string)
    ensures Concat([a, b, c, d]) == a + b + c + d && Join([a, b, c, d]) == a + "_" + b + "_" + c + "_" + d
  {
    assert [a, b, c, d][1..] == [b, c, d];
    ConcatJoin3(b, c, d);
  }

  /** The words the merged labels are made of. */
  lemma MergedWords1()
    ensures IsWord("Id") && IsWord("Store") && IsWord("Day") && IsWord("Of") && IsWord("Week")
  {
  }

  lemma MergedWords2()
    ensures IsWord("Date") && IsWord("Open") && IsWord("Promo") && IsWord("State") && IsWord("Holiday")
  {
  }

  lemma MergedWords3()
    ensures IsWord("School") && IsWord("Type") && IsWord("Assortment") && IsWord("Competition") && IsWord("Distance")
  {
  }

  lemma MergedWords4()
    ensures IsWord("Since") && IsWord("Month") && IsWord("Year") && IsWord("Promo2") && IsWord("Interval")
  {
  }

  lemma IdLowered()
    ensures Lower("Id") == "id"
  {
  }

  lemma IdRenamed()
    ensures SnakeCase("Id") == "id"
  {
    MergedWords1();
    IdLowered();
    RenameWord("Id", "Id", "id");
  }

  lemma StoreLowered()
    ensures Lower("Store") == "store"
  {
  }

  lemma StoreRenamed()
    ensures SnakeCase("Store") == "store"
  {
    MergedWords1();
    StoreLowered();
    RenameWord("Store", "Store", "store");
  }

  lemma DayOfWeekLowered()
    ensures Lower("Day_Of_Week") == "day_of_week"
  {
  }

  lemma DayOfWeekRenamed()
    ensures SnakeCase("DayOfWeek") == "day_of_week"
  {
    MergedWords1();
    DayOfWeekLowered();
    RenameWords3("Day", "Of", "Week", "DayOfWeek", "day_of_week");
  }

  lemma DateLowered()
    ensures Lower("Date") == "date"
  {
  }

  lemma DateRenamed()
    ensures SnakeCase("Date") == "date"
  {
    MergedWords2();
    DateLowered();
    RenameWord("Date", "Date", "date");
  }

  lemma OpenLowered()
    ensures Lower("Open") == "open"
  {
  }

  lemma OpenRenamed()
    ensures SnakeCase("Open") == "open"
  {
    MergedWords2();
    OpenLowered();
    RenameWord("Open", "Open", "open");
  }

  lemma PromoLowered()
    ensures Lower("Promo") == "promo"
  {
  }

  lemma PromoRenamed()
    ensures SnakeCase("Promo") == "promo"
  {
    MergedWords2();
    PromoLowered();
    RenameWord("Promo", "Promo", "promo");
  }

  lemma StateHolidayLowered()
    ensures Lower("State_Holiday") == "state_holiday"
  {
  }

  lemma StateHolidayRenamed()
    ensures SnakeCase("StateHoliday") == "state_holiday"
  {
    MergedWords2();
    StateHolidayLowered();
    RenameWords2("State", "Holiday", "StateHoliday", "state_holiday");
  }

  lemma SchoolHolidayLowered()
    ensures Lower("School_Holiday") == "school_holiday"
  {
  }

  lemma SchoolHolidayRenamed()
    ensures SnakeCase("SchoolHoliday") == "school_holiday"
  {
    MergedWords2();
    MergedWords3();
    SchoolHolidayLowered();
    RenameWords2("School", "Holiday", "SchoolHoliday", "school_holiday");
  }

  lemma StoreTypeLowered()
    ensures Lower("Store_Type") == "store_type"
  {
  }

  lemma StoreTypeRenamed()
    ensures SnakeCase("StoreType") == "store_type"
  {
    MergedWords1();
    MergedWords3();
    StoreTypeLowered();
    RenameWords2("Store", "Type", "StoreType", "store_type");
  }

  lemma AssortmentLowered()
    ensures Lower("Assortment") == "assortment"
  {
  }

  lemma AssortmentRenamed()
    ensures SnakeCase("Assortment") == "assortment"
  {
    MergedWords3();
    AssortmentLowered();
    RenameWord("Assortment", "Assortment", "assortment");
  }

  lemma CompetitionDistanceLowered()
    ensures Lower("Competition_Distance") == "competition_distance"
  {
  }

  lemma CompetitionDistanceRenamed()
    ensures SnakeCase("CompetitionDistance") == "competition_distance"
  {
    MergedWords3();
    CompetitionDistanceLowered();
    RenameWords2("Competition", "Distance", "CompetitionDistance", "competition_distance");
  }

  lemma CompetitionOpenSinceMonthLowered()
    ensures Lower("Competition_Open_Since_Month") == "competition_open_since_month"
  {
  }

  lemma CompetitionOpenSinceMonthRenamed()
    ensures SnakeCase("CompetitionOpenSinceMonth") == "competition_open_since_month"
  {
    MergedWords2();
    MergedWords3();
    MergedWords4();
    CompetitionOpenSinceMonthLowered();
    RenameWords4("Competition", "Open", "Since", "Month", "CompetitionOpenSinceMonth", "competition_open_since_month");
  }

  lemma CompetitionOpenSinceYearLowered()
    ensures Lower("Competition_Open_Since_Year") == "competition_open_since_year"
  {
  }

  lemma CompetitionOpenSinceYearRenamed()
    ensures SnakeCase("CompetitionOpenSinceYear") == "competition_open_since_year"
  {
    MergedWords2();
    MergedWords3();
    MergedWords4();
    CompetitionOpenSinceYearLowered();
    RenameWords4("Competition", "Open", "Since", "Year", "CompetitionOpenSinceYear", "competition_open_since_year");
  }

  lemma Promo2Lowered()
    ensures Lower("Promo2") == "promo2"
  {
  }

  lemma Promo2Renamed()
    ensures SnakeCase("Promo2") == "promo2"
  {
    MergedWords4();
    Promo2Lowered();
    RenameWord("Promo2", "Promo2", "promo2");
  }

  lemma Promo2SinceWeekLowered()
    ensures Lower("Promo2_Since_Week") == "promo2_since_week"
  {
  }

  lemma Promo2SinceWeekRenamed()
    ensures SnakeCase("Promo2SinceWeek") == "promo2_since_week"
  {
    MergedWords1();
    MergedWords4();
    Promo2SinceWeekLowered();
    RenameWords3("Promo2", "Since", "Week", "Promo2SinceWeek", "promo2_since_week");
  }

  lemma Promo2SinceYearLowered()
    ensures Lower("Promo2_Since_Year") == "promo2_since_year"
  {
  }

  lemma Promo2SinceYearRenamed()
    ensures SnakeCase("Promo2SinceYear") == "promo2_since_year"
  {
    MergedWords4();
    Promo2SinceYearLowered();
    RenameWords3("Promo2", "Since", "Year", "Promo2SinceYear", "promo2_since_year");
  }

  lemma PromoIntervalLowered()
    ensures Lower("Promo_Interval") == "promo_interval"
  {
  }

  lemma PromoIntervalRenamed()
    ensures SnakeCase("PromoInterval") == "promo_interval"
  {
    MergedWords2();
    MergedWords4();
    PromoIntervalLowered();
    RenameWords2("Promo", "Interval", "PromoInterval", "promo_interval");
  }

  /** The labels of test.csv merged with store.csv on `Store`: the frame
      the bot and the dashboard send. */
  const MergedLabels: seq<string> := ["Id", "Store", "DayOfWeek", "Date", "Open", "Promo", "StateHoliday", "SchoolHoliday", "StoreType", "Assortment", "CompetitionDistance", "CompetitionOpenSinceMonth", "CompetitionOpenSinceYear", "Promo2", "Promo2SinceWeek", "Promo2SinceYear", "PromoInterval"]

  /** The snake-case labels the stages read. */
  const MergedSnakeLabels: seq<string> := ["id", "store", "day_of_week", "date", "open", "promo", "state_holiday", "school_holiday", "store_type", "assortment", "competition_distance", "competition_open_since_month", "competition_open_since_year", "promo2", "promo2_since_week", "promo2_since_year", "promo_interval"]

  /** The merged labels rename to the snake-case labels the stages read. */
  lemma MergedLabelsRename()
    ensures SnakeCaseAll(MergedLabels) == MergedSnakeLabels
  {
    var r := SnakeCaseAll(MergedLabels);
    forall k | 0 <= k < |MergedLabels|
      ensures r[k] == MergedSnakeLabels[k]
    {
      if k == 0 {
        MergedLabel0();
      } else if k == 1 {
        MergedLabel1();
      } else if k == 2 {
        MergedLabel2();
      } else if k == 3 {
        MergedLabel3();
      } else if k == 4 {
        MergedLabel4();
      } else if k == 5 {
        MergedLabel5();
      } else if k == 6 {
        MergedLabel6();
      } else if k == 7 {
        MergedLabel7();
      } else if k == 8 {
        MergedLabel8();
      } else if k == 9 {
        MergedLabel9();
      } else if k == 10 {
        MergedLabel10();
      } else if k == 11 {
        MergedLabel11();
      } else if k == 12 {
        MergedLabel12();
      } else if k == 13 {
        MergedLabel13();
      } else if k == 14 {
        MergedLabel14();
      } else if k == 15 {
        MergedLabel15();
      } else {
        MergedLabel16();
      }
    }
  }

  lemma MergedLabel0()
    ensures SnakeCase(MergedLabels[0]) == MergedSnakeLabels[0]
  {
    assert MergedLabels[0] == "Id" && MergedSnakeLabels[0] == "id";
    IdRenamed();
  }

  lemma MergedLabel1()
    ensures SnakeCase(MergedLabels[1]) == MergedSnakeLabels[1]
  {
    assert MergedLabels[1] == "Store" && MergedSnakeLabels[1] == "store";
    StoreRenamed();
  }

  lemma MergedLabel2()
    ensures SnakeCase(MergedLabels[2]) == MergedSnakeLabels[2]
  {
    assert MergedLabels[2] == "DayOfWeek" && MergedSnakeLabels[2] == "day_of_week";
    DayOfWeekRenamed();
  }

  lemma MergedLabel3()
    ensures SnakeCase(MergedLabels[3]) == MergedSnakeLabels[3]
  {
    assert MergedLabels[3] == "Date" && MergedSnakeLabels[3] == "date";
    DateRenamed();
  }

  lemma MergedLabel4()
    ensures SnakeCase(MergedLabels[4]) == MergedSnakeLabels[4]
  {
    assert MergedLabels[4] == "Open" && MergedSnakeLabels[4] == "open";
    OpenRenamed();
  }

  lemma MergedLabel5()
    ensures SnakeCase(MergedLabels[5]) == MergedSnakeLabels[5]
  {
    assert MergedLabels[5] == "Promo" && MergedSnakeLabels[5] == "promo";
    PromoRenamed();
  }

  lemma MergedLabel6()
    ensures SnakeCase(MergedLabels[6]) == MergedSnakeLabels[6]
  {
    assert MergedLabels[6] == "StateHoliday" && MergedSnakeLabels[6] == "state_holiday";
    StateHolidayRenamed();
  }

  lemma MergedLabel7()
    ensures SnakeCase(MergedLabels[7]) == MergedSnakeLabels[7]
  {
    assert MergedLabels[7] == "SchoolHoliday" && MergedSnakeLabels[7] == "school_holiday";
    SchoolHolidayRenamed();
  }

  lemma MergedLabel8()
    ensures SnakeCase(MergedLabels[8]) == MergedSnakeLabels[8]
  {
    assert MergedLabels[8] == "StoreType" && MergedSnakeLabels[8] == "store_type";
    StoreTypeRenamed();
  }

  lemma MergedLabel9()
    ensures SnakeCase(MergedLabels[9]) == MergedSnakeLabels[9]
  {
    assert MergedLabels[9] == "Assortment" && MergedSnakeLabels[9] == "assortment";
    AssortmentRenamed();
  }

  lemma MergedLabel10()
    ensures SnakeCase(MergedLabels[10]) == MergedSnakeLabels[10]
  {
    assert MergedLabels[10] == "CompetitionDistance" && MergedSnakeLabels[10] == "competition_distance";
    CompetitionDistanceRenamed();
  }

  lemma MergedLabel11()
    ensures SnakeCase(MergedLabels[11]) == MergedSnakeLabels[11]
  {
    assert MergedLabels[11] == "CompetitionOpenSinceMonth" && MergedSnakeLabels[11] == "competition_open_since_month";
    CompetitionOpenSinceMonthRenamed();
  }

  lemma MergedLabel12()
    ensures SnakeCase(MergedLabels[12]) == MergedSnakeLabels[12]
  {
    assert MergedLabels[12] == "CompetitionOpenSinceYear" && MergedSnakeLabels[12] == "competition_open_since_year";
    CompetitionOpenSinceYearRenamed();
  }

  lemma MergedLabel13()
    ensures SnakeCase(MergedLabels[13]) == MergedSnakeLabels[13]
  {
    assert MergedLabels[13] == "Promo2" && MergedSnakeLabels[13] == "promo2";
    Promo2Renamed();
  }

  lemma MergedLabel14()
    ensures SnakeCase(MergedLabels[14]) == MergedSnakeLabels[14]
  {
    assert MergedLabels[14] == "Promo2SinceWeek" && MergedSnakeLabels[14] == "promo2_since_week";
    Promo2SinceWeekRenamed();
  }

  lemma MergedLabel15()
    ensures SnakeCase(MergedLabels[15]) == MergedSnakeLabels[15]
  {
    assert MergedLabels[15] == "Promo2SinceYear" && MergedSnakeLabels[15] == "promo2_since_year";
    Promo2SinceYearRenamed();
  }

  lemma MergedLabel16()
    ensures SnakeCase(MergedLabels[16]) == MergedSnakeLabels[16]
  {
    assert MergedLabels[16] == "PromoInterval" && MergedSnakeLabels[16] == "promo_interval";
    PromoIntervalRenamed();
  }

  /** No two of the renamed merged labels collide. */
  lemma MergedSnakeLabelsDistinct()
    ensures forall i, j :: 0 <= i < j < |MergedSnakeLabels| ==> MergedSnakeLabels[i] != MergedSnakeLabels[j]
  {
  }
}
