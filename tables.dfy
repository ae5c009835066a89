/** A pandas DataFrame as a value: column labels and positional rows.
    The operations are the DataFrame operations the pipeline uses:
    `df[c]`, `df[c] = values`, `drop(columns=...)`, boolean row selection
    and `df[list_of_labels]`. */
module Tables {
  import opened Values

  datatype Table = Table(columns: seq<string>, rows: seq<seq<Value>>)

  /** Every row has one cell per column. */
  predicate WellFormed(t: Table) {
    forall i :: 0 <= i < |t.rows| ==> |t.rows[i]| == |t.columns|
  }

  predicate Distinct<T(==)>(s: seq<T>) {
    forall i, j :: 0 <= i < j < |s| ==> s[i] != s[j]
  }

  /** A well-formed table whose column labels are pairwise different. */
  predicate Labelled(t: Table) {
    WellFormed(t) && Distinct(t.columns)
  }

  /** Position of the first column with label c. */
  function IndexOf(cols: seq<string>, c: string): (k: nat)
    requires c in cols
    ensures k < |cols| && cols[k] == c
    ensures forall j :: 0 <= j < k ==> cols[j] != c
  {
    if cols[0] == c then 0 else 1 + IndexOf(cols[1..], c)
  }

  lemma IndexOfDistinct(cols: seq<string>, k: nat)
    requires Distinct(cols) && k < |cols|
    ensures IndexOf(cols, cols[k]) == k
  {
  }

  lemma IndexOfAppend(cols: seq<string>, extra: seq<string>, c: string)
    requires c in cols
    ensures IndexOf(cols + extra, c) == IndexOf(cols, c)
  {
    var k := IndexOf(cols, c);
    assert (cols + extra)[k] == c;
  }

  /** `df[c]`: the cells of column c, top to bottom. */
  function Column(t: Table, c: string): (vs: seq<Value>)
    requires WellFormed(t) && c in t.columns
    ensures |vs| == |t.rows|
    ensures forall i :: 0 <= i < |t.rows| ==> vs[i] == t.rows[i][IndexOf(t.columns, c)]
  {
    Cells(t.rows, IndexOf(t.columns, c))
  }

  /** The cells at position k of rows that all have one. */
  function Cells(rows: seq<seq<Value>>, k: nat): (vs: seq<Value>)
    requires forall i :: 0 <= i < |rows| ==> k < |rows[i]|
    ensures |vs| == |rows|
    ensures forall i :: 0 <= i < |rows| ==> vs[i] == rows[i][k]
  {
    seq(|rows|, i requires 0 <= i < |rows| => rows[i][k])
  }

  /** The labels after `df[c] = ...`: unchanged when c is present,
      otherwise c is added at the end. */
  function AddLabel(cols: seq<string>, c: string): (r: seq<string>)
    ensures c in r && forall d :: d in cols ==> d in r
    ensures forall d :: d in r ==> d in cols || d == c
  {
    if c in cols then cols else cols + [c]
  }

  /** `df[c] = vs`: replaces column c where it is, or appends it as the
      last column when the table has none of that label. */
  function SetColumn(t: Table, c: string, vs: seq<Value>): (r: Table)
    requires Labelled(t) && |vs| == |t.rows|
    ensures Labelled(r) && |r.rows| == |t.rows|
    ensures r.columns == AddLabel(t.columns, c)
    ensures Column(r, c) == vs
    ensures forall d :: d in t.columns && d != c ==> Column(r, d) == Column(t, d)
  {
    if c in t.columns then
      var k := IndexOf(t.columns, c);
      var r := Table(t.columns, seq(|t.rows|, i requires 0 <= i < |t.rows| => t.rows[i][k := vs[i]]));
      assert Column(r, c) == vs;
      r
    else
      var r := Table(t.columns + [c], seq(|t.rows|, i requires 0 <= i < |t.rows| => t.rows[i] + [vs[i]]));
      assert IndexOf(r.columns, c) == |t.columns|;
      forall d | d in t.columns && d != c
        ensures Column(r, d) == Column(t, d)
      {
        IndexOfAppend(t.columns, [c], d);
      }
      r
  }

  /** s without its element at position k. */
  function RemoveAt<T>(s: seq<T>, k: nat): (r: seq<T>)
    requires k < |s|
    ensures |r| == |s| - 1
    ensures forall j :: 0 <= j < |r| ==> r[j] == if j < k then s[j] else s[j + 1]
  {
    s[..k] + s[k + 1..]
  }

  /** `drop(columns=[c])` for a label that is present. */
  function DropColumn(t: Table, c: string): (r: Table)
    requires Labelled(t) && c in t.columns
    ensures Labelled(r) && |r.rows| == |t.rows|
    ensures r.columns == RemoveAt(t.columns, IndexOf(t.columns, c))
    ensures c !in r.columns
    ensures forall d :: d in t.columns && d != c ==> d in r.columns && Column(r, d) == Column(t, d)
  {
    var k := IndexOf(t.columns, c);
    var r := Table(RemoveAt(t.columns, k), seq(|t.rows|, i requires 0 <= i < |t.rows| => RemoveAt(t.rows[i], k)));
    forall d | d in t.columns && d != c
      ensures d in r.columns && Column(r, d) == Column(t, d)
    {
      DropKeeps(t, k, d, r);
    }
    r
  }

  lemma DropKeeps(t: Table, k: nat, d: string, r: Table)
    requires Labelled(t) && k < |t.columns| && d in t.columns && d != t.columns[k]
    requires r == Table(RemoveAt(t.columns, k), seq(|t.rows|, i requires 0 <= i < |t.rows| => RemoveAt(t.rows[i], k)))
    ensures Labelled(r) && d in r.columns && Column(r, d) == Column(t, d)
  {
    var j := IndexOf(t.columns, d);
    assert j != k;
    var j' := if j < k then j else j - 1;
    assert r.columns[j'] == d;
    RemoveAtDistinct(t.columns, k);
    IndexOfDistinct(r.columns, j');
    assert forall i :: 0 <= i < |t.rows| ==> r.rows[i][j'] == t.rows[i][j];
  }

  lemma RemoveAtDistinct<T>(s: seq<T>, k: nat)
    requires Distinct(s) && k < |s|
    ensures Distinct(RemoveAt(s, k))
  {
    var r := RemoveAt(s, k);
    forall a, b | 0 <= a < b < |r|
      ensures r[a] != r[b]
    {
      var a', b' := if a < k then a else a + 1, if b < k then b else b + 1;
      assert r[a] == s[a'] && r[b] == s[b'];
    }
  }

  /** Without position k, exactly the other elements remain. */
  lemma RemoveAtMembers<T>(s: seq<T>, k: nat)
    requires Distinct(s) && k < |s|
    ensures forall d :: d in RemoveAt(s, k) <==> d in s && d != s[k]
  {
    var r := RemoveAt(s, k);
    forall d | d in s && d != s[k]
      ensures d in r
    {
      var i :| 0 <= i < |s| && s[i] == d;
      assert r[if i < k then i else i - 1] == d;
    }
  }

  lemma DropOne(t: Table, c: string)
    requires Labelled(t) && c in t.columns
    ensures DropColumns(t, [c]) == Ok(DropColumn(t, c))
  {
    assert DropEach(t, [c]) == DropEach(DropColumn(t, c), []);
  }

  /** Drops each label of cs that is still present, left to right. */
  function DropEach(t: Table, cs: seq<string>): (r: Table)
    requires Labelled(t)
    ensures Labelled(r) && |r.rows| == |t.rows|
    ensures forall c :: c in cs ==> c !in r.columns
    ensures forall d :: d in r.columns ==> d in t.columns
    ensures forall d :: d in t.columns && d !in cs ==> d in r.columns && Column(r, d) == Column(t, d)
    decreases |cs|
  {
    if cs == [] then t
    else
      var t' := if cs[0] in t.columns then DropColumn(t, cs[0]) else t;
      DropEach(t', cs[1..])
  }

  function FirstAbsent(cs: seq<string>, cols: seq<string>): (c: string)
    requires exists c :: c in cs && c !in cols
    ensures c in cs && c !in cols
  {
    if cs[0] !in cols then cs[0] else FirstAbsent(cs[1..], cols)
  }

  /** `drop(columns=cs)`: a KeyError, and nothing dropped, when a label is absent. */
  function DropColumns(t: Table, cs: seq<string>): (r: Result<Table>)
    requires Labelled(t)
    ensures r.Ok? <==> forall c :: c in cs ==> c in t.columns
    ensures r.Err? ==> r.error.KeyError? && r.error.name in cs && r.error.name !in t.columns
    ensures r.Ok? ==> Labelled(r.value) && |r.value.rows| == |t.rows|
    ensures r.Ok? ==> forall c :: c in cs ==> c !in r.value.columns
    ensures r.Ok? ==> forall d :: d in r.value.columns ==> d in t.columns
    ensures r.Ok? ==> forall d :: d in t.columns && d !in cs ==> d in r.value.columns && Column(r.value, d) == Column(t, d)
  {
    if forall c :: c in cs ==> c in t.columns then Ok(DropEach(t, cs))
    else Err(KeyError(FirstAbsent(cs, t.columns)))
  }

  /** `df[cs]`: a new table with exactly the columns cs, in that order, or a
      KeyError for a label that is absent. */
  function Select(t: Table, cs: seq<string>): (r: Result<Table>)
    requires WellFormed(t)
    ensures r.Ok? <==> forall c :: c in cs ==> c in t.columns
    ensures r.Err? ==> r.error.KeyError? && r.error.name in cs && r.error.name !in t.columns
    ensures r.Ok? ==> r.value.columns == cs && |r.value.rows| == |t.rows| && WellFormed(r.value)
    ensures r.Ok? && Distinct(cs) ==> Labelled(r.value)
    ensures r.Ok? ==> forall c :: c in cs ==> Column(r.value, c) == Column(t, c)
  {
    if forall c :: c in cs ==> c in t.columns then
      var r := Table(cs, seq(|t.rows|, i requires 0 <= i < |t.rows| =>
        seq(|cs|, j requires 0 <= j < |cs| => t.rows[i][IndexOf(t.columns, cs[j])])));
      assert forall c :: c in cs ==> Column(r, c) == Column(t, c);
      Ok(r)
    else Err(KeyError(FirstAbsent(cs, t.columns)))
  }

  /** Boolean row selection `df[df[f] == n]`: the rows whose cell at k
      equals n, in their original order. */
  function KeepWhere(rows: seq<seq<Value>>, k: nat, n: int): (r: seq<seq<Value>>)
    ensures |r| <= |rows|
    ensures forall i :: 0 <= i < |r| ==> k < |r[i]| && NumEquals(r[i][k], n)
  {
    if rows == [] then []
    else (if k < |rows[0]| && NumEquals(rows[0][k], n) then [rows[0]] else []) + KeepWhere(rows[1..], k, n)
  }

  /** Exactly the rows whose cell at k equals n are kept. */
  lemma {:induction false} KeepWhereMembers(rows: seq<seq<Value>>, k: nat, n: int)
    ensures forall x :: x in KeepWhere(rows, k, n) ==> x in rows
    ensures forall x :: x in rows && k < |x| && NumEquals(x[k], n) ==> x in KeepWhere(rows, k, n)
  {
    if rows != [] {
      KeepWhereMembers(rows[1..], k, n);
      assert rows == [rows[0]] + rows[1..];
    }
  }

  /** The selection keeps relative order: selecting from a concatenation is
      the concatenation of the selections. */
  lemma {:induction false} KeepWhereAppend(a: seq<seq<Value>>, b: seq<seq<Value>>, k: nat, n: int)
    ensures KeepWhere(a + b, k, n) == KeepWhere(a, k, n) + KeepWhere(b, k, n)
  {
    if a == [] {
      assert a + b == b;
    } else {
      assert (a + b)[0] == a[0] && (a + b)[1..] == a[1..] + b;
      KeepWhereAppend(a[1..], b, k, n);
    }
  }

  /** The cells of vs whose flag equals n (a column seen through a row mask). */
  function KeepBy(vs: seq<Value>, flags: seq<Value>, n: int): seq<Value>
    requires |vs| == |flags|
  {
    if vs == [] then [] else (if NumEquals(flags[0], n) then [vs[0]] else []) + KeepBy(vs[1..], flags[1..], n)
  }

  /** The number of flags equal to n. */
  function CountEq(flags: seq<Value>, n: int): nat {
    if flags == [] then 0 else (if NumEquals(flags[0], n) then 1 else 0) + CountEq(flags[1..], n)
  }

  lemma {:induction false} KeepByLength(vs: seq<Value>, flags: seq<Value>, n: int)
    requires |vs| == |flags|
    ensures |KeepBy(vs, flags, n)| == CountEq(flags, n)
  {
    if vs != [] {
      KeepByLength(vs[1..], flags[1..], n);
    }
  }

  lemma {:induction false} CellsOfCons(rows: seq<seq<Value>>, k: nat)
    requires rows != [] && forall i :: 0 <= i < |rows| ==> k < |rows[i]|
    ensures Cells(rows, k) == [rows[0][k]] + Cells(rows[1..], k)
  {
    var a, b := Cells(rows, k), [rows[0][k]] + Cells(rows[1..], k);
    forall i | 0 <= i < |a|
      ensures a[i] == b[i]
    {
      if i > 0 {
        assert rows[i] == rows[1..][i - 1];
      }
    }
  }

  /** The cells at kd of the rows whose cell at kf equals n are the cells at
      kd seen through the mask of the cells at kf. */
  lemma {:induction false} KeptWidth(rows: seq<seq<Value>>, kf: nat, kd: nat, n: int)
    requires forall i :: 0 <= i < |rows| ==> kd < |rows[i]|
    ensures forall i :: 0 <= i < |KeepWhere(rows, kf, n)| ==> kd < |KeepWhere(rows, kf, n)[i]|
  {
    var kept := KeepWhere(rows, kf, n);
    KeepWhereMembers(rows, kf, n);
    forall i | 0 <= i < |kept|
      ensures kd < |kept[i]|
    {
      assert kept[i] in kept;
      var j :| 0 <= j < |rows| && rows[j] == kept[i];
    }
  }

  lemma {:induction false} KeptSameWidth(rows: seq<seq<Value>>, kf: nat, w: nat, n: int)
    requires forall i :: 0 <= i < |rows| ==> |rows[i]| == w
    ensures forall i :: 0 <= i < |KeepWhere(rows, kf, n)| ==> |KeepWhere(rows, kf, n)[i]| == w
  {
    var kept := KeepWhere(rows, kf, n);
    KeepWhereMembers(rows, kf, n);
    forall i | 0 <= i < |kept|
      ensures |kept[i]| == w
    {
      assert kept[i] in kept;
      var j :| 0 <= j < |rows| && rows[j] == kept[i];
    }
  }

  lemma {:induction false} CellsOfKept(rows: seq<seq<Value>>, kf: nat, kd: nat, n: int)
    requires forall i :: 0 <= i < |rows| ==> kf < |rows[i]| && kd < |rows[i]|
    ensures forall i :: 0 <= i < |KeepWhere(rows, kf, n)| ==> kd < |KeepWhere(rows, kf, n)[i]|
    ensures Cells(KeepWhere(rows, kf, n), kd) == KeepBy(Cells(rows, kd), Cells(rows, kf), n)
  {
    KeptWidth(rows, kf, kd, n);
    if rows != [] {
      var rest := rows[1..];
      var kept, kr := KeepWhere(rows, kf, n), KeepWhere(rest, kf, n);
      CellsOfKept(rest, kf, kd, n);
      CellsOfCons(rows, kd);
      CellsOfCons(rows, kf);
      if NumEquals(rows[0][kf], n) {
        assert kept != [] && kept[0] == rows[0] && kept[1..] == kr;
        CellsOfCons(kept, kd);
      } else {
        assert kept == kr;
      }
    }
  }

  /** Column d after selecting the rows where column f equals n is column d
      seen through the mask of column f. */
  lemma ColumnOfKept(t: Table, f: string, n: int, d: string)
    requires WellFormed(t) && f in t.columns && d in t.columns
    ensures WellFormed(Table(t.columns, KeepWhere(t.rows, IndexOf(t.columns, f), n)))
    ensures Column(Table(t.columns, KeepWhere(t.rows, IndexOf(t.columns, f), n)), d)
         == KeepBy(Column(t, d), Column(t, f), n)
  {
    KeptSameWidth(t.rows, IndexOf(t.columns, f), |t.columns|, n);
    CellsOfKept(t.rows, IndexOf(t.columns, f), IndexOf(t.columns, d), n);
  }

  /** The number of rows kept is the number of cells of column f equal to n. */
  lemma KeptRowCount(t: Table, f: string, n: int)
    requires WellFormed(t) && f in t.columns
    ensures |KeepWhere(t.rows, IndexOf(t.columns, f), n)| == CountEq(Column(t, f), n)
  {
    ColumnOfKept(t, f, n, f);
    KeepByLength(Column(t, f), Column(t, f), n);
  }
}
