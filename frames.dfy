/** A pandas DataFrame that the pipeline changes in place. Each method is
    one DataFrame operation, specified by the table function it applies. */
module Frames {
  import opened Values
  import opened Tables

  class Frame {
    var columns: seq<string>
    var rows: seq<seq<Value>>

    /** The table the frame holds now. */
    function Contents(): Table
      reads this
    {
      Table(columns, rows)
    }

    ghost predicate Valid()
      reads this
    {
      Labelled(Contents())
    }

    constructor (t: Table)
      requires Labelled(t)
      ensures Valid() && Contents() == t
    {
      columns := t.columns;
      rows := t.rows;
    }

    /** `df.copy()`: a separate frame with the same contents. */
    method Copy() returns (g: Frame)
      requires Valid()
      ensures fresh(g) && g.Valid() && g.Contents() == Contents()
    {
      g := new Frame(Contents());
    }

    /** `df.columns = names`: new labels, the same cells. */
    method SetLabels(names: seq<string>)
      requires Valid() && |names| == |columns| && Distinct(names)
      modifies this
      ensures Valid() && columns == names && rows == old(rows)
    {
      columns := names;
    }

    /** `df[c]`, raising KeyError for an absent label. */
    method Get(c: string) returns (r: Result<seq<Value>>)
      requires Valid()
      ensures c in columns ==> r == Ok(Column(Contents(), c))
      ensures c !in columns ==> r == Err(KeyError(c))
    {
      if c in columns {
        r := Ok(Column(Contents(), c));
      } else {
        r := Err(KeyError(c));
      }
    }

    /** `df[c] = vs`. */
    method Assign(c: string, vs: seq<Value>)
      requires Valid() && |vs| == |rows|
      modifies this
      ensures Valid() && Contents() == SetColumn(old(Contents()), c, vs)
    {
      var t := SetColumn(Contents(), c, vs);
      columns, rows := t.columns, t.rows;
    }

    /** `df.drop(columns=cs, inplace=True)`: on a KeyError nothing is dropped. */
    method Drop(cs: seq<string>) returns (o: Outcome)
      requires Valid()
      modifies this
      ensures Valid()
      ensures DropColumns(old(Contents()), cs).Ok? ==> o == Pass && Contents() == DropColumns(old(Contents()), cs).value
      ensures DropColumns(old(Contents()), cs).Err? ==> o == Fail(DropColumns(old(Contents()), cs).error) && Contents() == old(Contents())
    {
      var r := DropColumns(Contents(), cs);
      if r.Ok? {
        columns, rows := r.value.columns, r.value.rows;
        o := Pass;
      } else {
        o := Fail(r.error);
      }
    }

    /** `df[df[f] == n]`: a new frame of the matching rows; this one is unchanged. */
    method RowsWhere(f: string, n: int) returns (r: Result<Frame>)
      requires Valid()
      ensures f !in columns ==> r == Err(KeyError(f))
      ensures f in columns ==> r.Ok? && fresh(r.value) && r.value.Valid()
      ensures f in columns ==> r.Ok? && r.value.Contents() == Table(columns, KeepWhere(rows, IndexOf(columns, f), n))
    {
      if f !in columns {
        return Err(KeyError(f));
      }
      var kept := KeepWhere(rows, IndexOf(columns, f), n);
      KeptSameWidth(rows, IndexOf(columns, f), |columns|, n);
      var g := new Frame(Table(columns, kept));
      r := Ok(g);
    }

    /** `df[cs]`: a new frame with the listed columns; this one is unchanged. */
    method SelectColumns(cs: seq<string>) returns (r: Result<Frame>)
      requires Valid() && Distinct(cs)
      ensures Select(Contents(), cs).Err? ==> r == Err(Select(Contents(), cs).error)
      ensures Select(Contents(), cs).Ok? ==> r.Ok? && fresh(r.value) && r.value.Valid()
      ensures Select(Contents(), cs).Ok? ==> r.Ok? && r.value.Contents() == Select(Contents(), cs).value
    {
      var s := Select(Contents(), cs);
      if s.Err? {
        return Err(s.error);
      }
      var g := new Frame(s.value);
      r := Ok(g);
    }
  }
}
