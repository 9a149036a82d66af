/**
 * The DataFrames the script updates in place: `normalize_columns` replacing
 * the headers, the date columns overwritten with their coerced values, the
 * amount column overwritten with its rounded values, and the new
 * `monto_local` column. Each method is specified by the pure table
 * function it performs on the frame's contents.
 */
module Frames {
  import opened Wrappers
  import opened Dates
  import opened Records
  import opened Sequences
  import opened Headers
  import opened Window
  import opened Currency
  import opened Conversion

  class Frame {
    var columns: seq<string>
    var rows: seq<seq<Value>>

    /** The frame's contents as a table value. */
    function Snapshot(): Table
      reads this
    {
      Table(columns, rows)
    }

    constructor (t: Table)
      ensures Snapshot() == t
    {
      columns := t.columns;
      rows := t.rows;
    }

    /** `df.copy()`: a new frame with the same contents. */
    method Copy() returns (f: Frame)
      ensures fresh(f) && f.Snapshot() == Snapshot()
    {
      f := new Frame(Snapshot());
    }

    /** `normalize_columns(df)`: `df.columns = clean`. */
    method NormalizeColumns()
      modifies this
      ensures columns == NormalizedColumns(old(columns)) && rows == old(rows)
    {
      var clean := Headers.NormalizeColumns(columns);
      columns := clean;
    }

    /** `df[name] = vals`, row by row: the column overwritten, or appended when there is none. */
    method SetColumn(name: string, vals: seq<Value>)
      requires Rectangular(Snapshot()) && |vals| == |rows|
      modifies this
      ensures Snapshot() == Assign(old(Snapshot()), name, vals)
    {
      ghost var rows0 := rows;
      var idx := IndexOf(columns, name);
      var k := 0;
      if idx.Some? {
        var i := idx.value;
        while k < |rows|
          invariant 0 <= k <= |rows| == |old(rows)|
          invariant columns == old(columns)
          invariant forall j :: 0 <= j < k ==> rows[j] == SetCell(old(rows)[j], i, vals[j])
          invariant forall j :: k <= j < |rows| ==> rows[j] == old(rows)[j]
        {
          rows := rows[k := SetCell(rows[k], i, vals[k])];
          k := k + 1;
        }
        assert rows == seq(|rows0|, j requires 0 <= j < |rows0| => SetCell(rows0[j], i, vals[j]));
      } else {
        while k < |rows|
          invariant 0 <= k <= |rows| == |old(rows)|
          invariant columns == old(columns)
          invariant forall j :: 0 <= j < k ==> rows[j] == old(rows)[j] + [vals[j]]
          invariant forall j :: k <= j < |rows| ==> rows[j] == old(rows)[j]
        {
          rows := rows[k := rows[k] + [vals[k]]];
          k := k + 1;
        }
        assert rows == seq(|rows0|, j requires 0 <= j < |rows0| => rows0[j] + [vals[j]]);
        columns := columns + [name];
      }
    }

    /** `df[name] = pd.to_datetime(df[name], errors="coerce").dt.date` */
    method CoerceDates(name: string)
      requires Rectangular(Snapshot())
      modifies this
      ensures Snapshot() == CoerceColumn(old(Snapshot()), name)
    {
      var vals: seq<Value> := [];
      var k := 0;
      while k < |rows|
        invariant 0 <= k <= |rows| && |vals| == k
        invariant forall j :: 0 <= j < k ==> vals[j] == CoerceCell(Field(columns, rows[j], name))
      {
        vals := vals + [CoerceCell(Field(columns, rows[k], name))];
        k := k + 1;
      }
      ghost var src := ColumnValues(Snapshot(), name);
      assert vals == seq(|src|, j requires 0 <= j < |src| => CoerceCell(src[j]));
      SetColumn(name, vals);
    }

    /** `df[df[name].between(start, end)].copy()`: a new frame of the rows in the window. */
    method Between(name: string, start: Date, end: Date) returns (f: Frame)
      ensures fresh(f) && f.Snapshot() == KeepWindow(Snapshot(), name, start, end)
    {
      var cols := columns;
      var kept: seq<seq<Value>> := [];
      var k := 0;
      while k < |rows|
        invariant 0 <= k <= |rows|
        invariant kept == Filter(row => InWindow(cols, name, start, end, row), rows[..k])
      {
        FilterAppend(row => InWindow(cols, name, start, end, row), rows[..k], [rows[k]]);
        assert rows[..k + 1] == rows[..k] + [rows[k]];
        if InWindow(cols, name, start, end, rows[k]) {
          kept := kept + [rows[k]];
        }
        k := k + 1;
      }
      assert rows[..k] == rows;
      f := new Frame(Table(columns, kept));
    }

    /** `df[df[name] < start].copy()`: a new frame of the rows before the window. */
    method Before(name: string, start: Date) returns (f: Frame)
      ensures fresh(f) && f.Snapshot() == Archive(Snapshot(), name, start)
    {
      var cols := columns;
      var kept: seq<seq<Value>> := [];
      var k := 0;
      while k < |rows|
        invariant 0 <= k <= |rows|
        invariant kept == Filter(row => BeforeWindow(cols, name, start, row), rows[..k])
      {
        FilterAppend(row => BeforeWindow(cols, name, start, row), rows[..k], [rows[k]]);
        assert rows[..k + 1] == rows[..k] + [rows[k]];
        if BeforeWindow(cols, name, start, rows[k]) {
          kept := kept + [rows[k]];
        }
        k := k + 1;
      }
      assert rows[..k] == rows;
      f := new Frame(Table(columns, kept));
    }

    /**
     * `df[col] = df[col].round(0).astype(int)` for the role's canonical
     * amount column, of numeric dtype exactly when `numeric` holds. `round`
     * raises on an `object` column, and the cast on the first value that is
     * not a number, before anything is assigned.
     */
    method RoundAmounts(src: Source, numeric: bool) returns (err: Option<Error>)
      requires Rectangular(Snapshot())
      modifies this
      ensures var r := Conversion.RoundAmounts(src, numeric, old(Snapshot()));
        (err.None? <==> r.Success?) && (r.Success? ==> Snapshot() == r.value)
      ensures err.Some? ==> Conversion.RoundAmounts(src, numeric, old(Snapshot())) == Failure(err.value) && Snapshot() == old(Snapshot())
    {
      if !numeric {
        return Some(ObjectAmountColumn(src, src.AmountColumn()));
      }
      var vals := RoundedColumn(src, src.AmountColumn());
      if vals.Failure? {
        return Some(vals.error);
      }
      SetColumn(src.AmountColumn(), vals.value);
      err := None;
    }

    /** `df[col].round(0).astype(int)`, value by value: the rounded column, or the error of the cast. */
    method RoundedColumn(src: Source, col: string) returns (r: Result<seq<Value>, Error>)
      ensures r == RoundValues(src, col, ColumnValues(Snapshot(), col))
    {
      ghost var cv := ColumnValues(Snapshot(), col);
      var vals: seq<Value> := [];
      var k := 0;
      while k < |rows|
        invariant 0 <= k <= |rows| && |vals| == k
        invariant forall j :: 0 <= j < k ==> cv[j].Number? && vals[j] == Number(RoundHalfEven(cv[j].x) as real)
      {
        var v := Field(columns, rows[k], col);
        if !v.Number? {
          assert !cv[k].Number?;
          return Failure(AmountNotNumeric(src, col));
        }
        vals := vals + [Number(RoundHalfEven(v.x) as real)];
        k := k + 1;
      }
      assert RoundValues(src, col, cv).value == vals;
      r := Success(vals);
    }

    /**
     * `df["monto_local"] = df.apply(lambda r: apply_rate(r, amt_col), axis=1)`:
     * the amounts computed row by row, then the new column assigned; a
     * value that is not a number raises before the assignment, and so does
     * the assignment of what `apply` returns for a frame with no rows.
     */
    method AddLocalAmount(src: Source, amtCol: string, rate: real) returns (r: Result<seq<int>, Error>)
      requires Rectangular(Snapshot())
      modifies this
      ensures var p := Conversion.AddLocalAmount(src, old(Snapshot()), amtCol, rate);
        (r.Success? <==> p.Success?) && (p.Success? ==> Snapshot() == p.value.0 && r.value == p.value.1)
      ensures r.Failure? ==> Conversion.AddLocalAmount(src, old(Snapshot()), amtCol, rate) == Failure(r.error) && Snapshot() == old(Snapshot())
    {
      if |rows| == 0 {
        return Failure(EmptyWindow(src));
      }
      r := LocalColumn(src, amtCol, rate);
      if r.Success? {
        SetColumn(LocalAmountColumn, AmountCells(r.value));
      }
    }

    /** `df.apply(lambda r: apply_rate(r, amt_col), axis=1)`, row by row. */
    method LocalColumn(src: Source, amtCol: string, rate: real) returns (r: Result<seq<int>, Error>)
      ensures r == LocalAmounts(src, amtCol, ColumnValues(Snapshot(), amtCol), ColumnValues(Snapshot(), CurrencyColumn), rate)
    {
      ghost var av, cv := ColumnValues(Snapshot(), amtCol), ColumnValues(Snapshot(), CurrencyColumn);
      var amounts: seq<int> := [];
      var k := 0;
      while k < |rows|
        invariant 0 <= k <= |rows| && |amounts| == k
        invariant forall j :: 0 <= j < k ==> Success(amounts[j]) == ApplyRate(src, amtCol, av[j], cv[j], rate)
      {
        var m := ApplyRate(src, amtCol, Field(columns, rows[k], amtCol), Field(columns, rows[k], CurrencyColumn), rate);
        assert m == ApplyRate(src, amtCol, av[k], cv[k], rate);
        if m.Failure? {
          return Failure(m.error);
        }
        amounts := amounts + [m.value];
        k := k + 1;
      }
      assert LocalAmounts(src, amtCol, av, cv, rate).value == amounts;
      r := Success(amounts);
    }
  }
}
