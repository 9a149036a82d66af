/**
 * Date Filter: the coercion of a date column (`pd.to_datetime(...,
 * errors="coerce").dt.date`), the inclusive reporting window
 * (`between(start_date, end_date)`) and the archive selection
 * (`< start_date`). A cell that is not a day after coercion is NaT, and NaT
 * compares false against every day, so it passes neither filter.
 */
module Window {
  import opened Wrappers
  import opened Dates
  import opened Records
  import opened Sequences

  /**
   * One cell through `to_datetime(errors="coerce")`: a day pandas can hold
   * stays; an ISO `YYYY-MM-DD` text is read; anything else becomes NaT.
   */
  function CoerceDate(v: Value): (r: Option<Date>)
    ensures r.Some? ==> Valid(r.value) && InTimestampRange(r.value)
  {
    match v
    case DateVal(d) => if Valid(d) && InTimestampRange(d) then Some(d) else None
    case Text(s) => ParseIso(s)
    case _ => None
  }

  /** The coerced cell as it is stored back: a day, or NaT. */
  function CoerceCell(v: Value): (r: Value)
    ensures r.DateVal? || r.Missing?
    ensures r.DateVal? ==> Valid(r.d) && InTimestampRange(r.d)
  {
    match CoerceDate(v)
    case Some(d) => DateVal(d)
    case None => Missing
  }

  /** Coercing an already coerced cell changes nothing. */
  lemma CoerceCellIdempotent(v: Value)
    ensures CoerceCell(CoerceCell(v)) == CoerceCell(v)
  {
  }

  /** `df[name] = pd.to_datetime(df[name], errors="coerce").dt.date` */
  function CoerceColumn(t: Table, name: string): (r: Table)
    requires Rectangular(t)
    ensures Rectangular(r) && |r.rows| == |t.rows|
    ensures name in t.columns ==> r.columns == t.columns
    ensures name in r.columns
    ensures forall c, k :: c != name && 0 <= k < |t.rows| ==> Field(r.columns, r.rows[k], c) == Field(t.columns, t.rows[k], c)
    ensures forall k :: 0 <= k < |r.rows| ==>
      Field(r.columns, r.rows[k], name) == CoerceCell(Field(t.columns, t.rows[k], name))
  {
    var vals := ColumnValues(t, name);
    var r := Assign(t, name, seq(|vals|, k requires 0 <= k < |vals| => CoerceCell(vals[k])));
    assert forall k :: 0 <= k < |r.rows| ==> Field(r.columns, r.rows[k], name) == ColumnValues(r, name)[k];
    r
  }

  /** A column whose every cell coercion keeps is left exactly as it was. */
  lemma CoerceColumnFixed(t: Table, name: string)
    requires Rectangular(t) && name in t.columns
    requires forall k :: 0 <= k < |t.rows| ==> CoerceCell(Field(t.columns, t.rows[k], name)) == Field(t.columns, t.rows[k], name)
    ensures CoerceColumn(t, name) == t
  {
    var vals := ColumnValues(t, name);
    var coerced := seq(|vals|, k requires 0 <= k < |vals| => CoerceCell(vals[k]));
    assert CoerceColumn(t, name) == Assign(t, name, coerced);
    var i := IndexOf(t.columns, name).value;
    var r := Assign(t, name, coerced);
    forall k | 0 <= k < |t.rows| ensures r.rows[k] == t.rows[k] {
      assert coerced[k] == t.rows[k][i];
    }
  }

  /**
   * Converting a date column a second time changes nothing: after the
   * first, every cell is a day pandas can hold, or NaT.
   */
  lemma CoerceColumnIdempotent(t: Table, name: string)
    requires Rectangular(t)
    ensures CoerceColumn(CoerceColumn(t, name), name) == CoerceColumn(t, name)
  {
    var c := CoerceColumn(t, name);
    forall k | 0 <= k < |c.rows| ensures CoerceCell(Field(c.columns, c.rows[k], name)) == Field(c.columns, c.rows[k], name) {
      CoerceCellIdempotent(Field(t.columns, t.rows[k], name));
    }
    CoerceColumnFixed(c, name);
  }

  /** The day a row's date column holds, or `None` for NaT. */
  function RowDate(columns: seq<string>, name: string, row: seq<Value>): Option<Date> {
    match Field(columns, row, name)
    case DateVal(d) => Some(d)
    case _ => None
  }

  predicate HasDate(columns: seq<string>, name: string, row: seq<Value>) {
    RowDate(columns, name, row).Some?
  }

  /** `between(start, end)`: inclusive at both ends. */
  predicate InWindow(columns: seq<string>, name: string, start: Date, end: Date, row: seq<Value>) {
    match RowDate(columns, name, row)
    case Some(d) => NotAfter(start, d) && NotAfter(d, end)
    case None => false
  }

  /** `< start_date`: strictly before the window. */
  predicate BeforeWindow(columns: seq<string>, name: string, start: Date, row: seq<Value>) {
    match RowDate(columns, name, row)
    case Some(d) => Before(d, start)
    case None => false
  }

  /** Dated after the window: in neither the window nor the archive. */
  predicate AfterWindow(columns: seq<string>, name: string, end: Date, row: seq<Value>) {
    match RowDate(columns, name, row)
    case Some(d) => Before(end, d)
    case None => false
  }

  /** `df[df[name].between(start, end)]` */
  function KeepWindow(t: Table, name: string, start: Date, end: Date): (r: Table)
    ensures r.columns == t.columns
    ensures Rectangular(t) ==> Rectangular(r)
    ensures forall row :: row in r.rows <==> row in t.rows && InWindow(t.columns, name, start, end, row)
  {
    var r := Table(t.columns, Filter(row => InWindow(t.columns, name, start, end, row), t.rows));
    SelectionRectangular(t, r);
    r
  }

  /** Selecting rows keeps every row one cell per column. */
  lemma SelectionRectangular(t: Table, r: Table)
    requires r.columns == t.columns
    requires forall row :: row in r.rows ==> row in t.rows
    ensures Rectangular(t) ==> Rectangular(r)
  {
    if Rectangular(t) {
      forall k | 0 <= k < |r.rows| ensures |r.rows[k]| == |r.columns| {
        assert r.rows[k] in t.rows;
      }
    }
  }

  /** `df_raw[df_raw[name] < start_date]` */
  function Archive(t: Table, name: string, start: Date): (r: Table)
    ensures r.columns == t.columns
    ensures Rectangular(t) ==> Rectangular(r)
    ensures forall row :: row in r.rows <==> row in t.rows && BeforeWindow(t.columns, name, start, row)
  {
    var r := Table(t.columns, Filter(row => BeforeWindow(t.columns, name, start, row), t.rows));
    SelectionRectangular(t, r);
    r
  }

  /** A window that holds the day of every row keeps every row. */
  lemma KeepWindowAll(t: Table, name: string, start: Date, end: Date)
    requires forall k :: 0 <= k < |t.rows| ==> InWindow(t.columns, name, start, end, t.rows[k])
    ensures KeepWindow(t, name, start, end).rows == t.rows
  {
    FilterAll(row => InWindow(t.columns, name, start, end, row), t.rows);
  }

  /** With no row dated before `start`, the archive is empty. */
  lemma ArchiveNone(t: Table, name: string, start: Date)
    requires forall k :: 0 <= k < |t.rows| ==> !BeforeWindow(t.columns, name, start, t.rows[k])
    ensures Archive(t, name, start).rows == []
  {
    FilterNone(row => BeforeWindow(t.columns, name, start, row), t.rows);
  }

  /** The rows dated after the window, which neither export holds. */
  function Later(t: Table, name: string, end: Date): (r: seq<seq<Value>>)
    ensures forall row :: row in r <==> row in t.rows && AfterWindow(t.columns, name, end, row)
  {
    Filter(row => AfterWindow(t.columns, name, end, row), t.rows)
  }

  /**
   * With `start <= end`, a row with a day is in exactly one of the archive,
   * the window and the rows after the window; a row with NaT is in none.
   */
  lemma ExactlyOnePlace(columns: seq<string>, name: string, start: Date, end: Date, row: seq<Value>)
    requires NotAfter(start, end)
    ensures HasDate(columns, name, row) ==>
      (BeforeWindow(columns, name, start, row) || InWindow(columns, name, start, end, row) || AfterWindow(columns, name, end, row))
    ensures !(BeforeWindow(columns, name, start, row) && InWindow(columns, name, start, end, row))
    ensures !(BeforeWindow(columns, name, start, row) && AfterWindow(columns, name, end, row))
    ensures !(InWindow(columns, name, start, end, row) && AfterWindow(columns, name, end, row))
    ensures !HasDate(columns, name, row) ==>
      !BeforeWindow(columns, name, start, row) && !InWindow(columns, name, start, end, row)
  {
  }

  /** The rows whose date column holds a day rather than NaT. */
  function DatedRows(t: Table, name: string): (r: seq<seq<Value>>)
    ensures forall row :: row in r <==> row in t.rows && HasDate(t.columns, name, row)
  {
    Filter(row => HasDate(t.columns, name, row), t.rows)
  }

  /** When every row holds a day, the dated rows are all the rows. */
  lemma DatedRowsAll(t: Table, name: string)
    requires forall k :: 0 <= k < |t.rows| ==> HasDate(t.columns, name, t.rows[k])
    ensures DatedRows(t, name) == t.rows
  {
    FilterAll(row => HasDate(t.columns, name, row), t.rows);
  }

  /**
   * The archive, the window and the later rows split the dated rows of one
   * table without loss or overlap.
   */
  lemma WindowPartition(t: Table, name: string, start: Date, end: Date)
    requires NotAfter(start, end)
    ensures multiset(DatedRows(t, name))
         == multiset(Archive(t, name, start).rows) + multiset(KeepWindow(t, name, start, end).rows)
          + multiset(Later(t, name, end))
    ensures |DatedRows(t, name)|
         == |Archive(t, name, start).rows| + |KeepWindow(t, name, start, end).rows| + |Later(t, name, end)|
  {
    var c := t.columns;
    var dated := row => HasDate(c, name, row);
    var archived := row => BeforeWindow(c, name, start, row);
    var notArchived := row => InWindow(c, name, start, end, row) || AfterWindow(c, name, end, row);
    var inWindow := row => InWindow(c, name, start, end, row);
    var later := row => AfterWindow(c, name, end, row);
    forall row ensures !(archived(row) && notArchived(row)) && (dated(row) <==> archived(row) || notArchived(row)) {
      ExactlyOnePlace(c, name, start, end, row);
    }
    FilterSplit(dated, archived, notArchived, t.rows);
    forall row ensures !(inWindow(row) && later(row)) {
      ExactlyOnePlace(c, name, start, end, row);
    }
    FilterSplit(notArchived, inWindow, later, t.rows);
  }
}
