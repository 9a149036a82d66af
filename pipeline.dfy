/**
 * The consolidation run as a whole: both sheets normalised, the raw copies
 * for the archive taken, the column gate, the date window, the rounding,
 * the amount lookup, the conversion to `monto_local`, and the three results
 * built from the records that pass: the summary matrix, the archive of the
 * rows before the window, and the ledger.
 */
module Pipeline {
  import opened Wrappers
  import opened Dates
  import opened Records
  import opened Headers
  import opened Schema
  import opened Sequences
  import opened Window
  import opened Conversion
  import Summary
  import Ledger
  import Agreement

  /** What the user picks: the window `start_date`..`end_date` and the USD rate. */
  datatype Request = Request(start: Date, end: Date, rate: real)

  /** `normalize_columns(df)`: the headers cleaned, the rows as they were. */
  function Normalize(t: Table): (r: Table)
    ensures r.columns == NormalizedColumns(t.columns) && r.rows == t.rows
    ensures Rectangular(t) ==> Rectangular(r)
  {
    Table(NormalizedColumns(t.columns), t.rows)
  }

  /** The column the raw copy converts: `vencimiento_real` when there is one, else `fecha_de_cobro`. */
  function RawDateColumn(columns: seq<string>): (r: Option<string>)
    ensures r.Some? <==> Suppliers.DateColumn() in columns || Clients.DateColumn() in columns
    ensures r.Some? ==> r.value in columns
    ensures Suppliers.DateColumn() in columns ==> r == Some(Suppliers.DateColumn())
  {
    if Suppliers.DateColumn() in columns then Some(Suppliers.DateColumn())
    else if Clients.DateColumn() in columns then Some(Clients.DateColumn())
    else None
  }

  /**
   * The raw copy of one sheet with its date column converted. With neither
   * date column, `df.get` gives `None` and reading `.dt` of it raises.
   */
  function RawCopy(src: Source, t: Table): (r: Result<Table, Error>)
    requires Rectangular(t)
    ensures r.Success? <==> RawDateColumn(t.columns).Some?
    ensures r.Success? ==> r.value == CoerceColumn(t, RawDateColumn(t.columns).value)
    ensures r.Failure? ==> r.error == NoDateColumn(src)
  {
    match RawDateColumn(t.columns)
    case Some(c) => Success(CoerceColumn(t, c))
    case None => Failure(NoDateColumn(src))
  }

  /** Every row holds a day in column `name`. */
  predicate AllDated(t: Table, name: string) {
    forall k :: 0 <= k < |t.rows| ==> Field(t.columns, t.rows[k], name).DateVal?
  }

  /** Steps 5 and 7 for one role: the date column converted, then the rows in the window kept. */
  function Windowed(src: Source, req: Request, t: Table): (r: Table)
    requires Rectangular(t)
    ensures Rectangular(r)
    ensures src.DateColumn() in t.columns ==> r.columns == t.columns
    ensures AllDated(r, src.DateColumn())
    ensures forall k :: 0 <= k < |r.rows| ==>
      NotAfter(req.start, Field(r.columns, r.rows[k], src.DateColumn()).d) &&
      NotAfter(Field(r.columns, r.rows[k], src.DateColumn()).d, req.end)
    ensures forall k :: 0 <= k < |r.rows| ==>
      Valid(Field(r.columns, r.rows[k], src.DateColumn()).d) && InTimestampRange(Field(r.columns, r.rows[k], src.DateColumn()).d)
  {
    var c := CoerceColumn(t, src.DateColumn());
    var r := KeepWindow(c, src.DateColumn(), req.start, req.end);
    assert forall k :: 0 <= k < |r.rows| ==> r.rows[k] in r.rows;
    WindowedRepresentable(t, c, r, src.DateColumn());
    r
  }

  /** Rows selected from a coerced table hold days pandas can hold. */
  lemma WindowedRepresentable(t: Table, c: Table, r: Table, name: string)
    requires Rectangular(t) && c == CoerceColumn(t, name)
    requires r.columns == c.columns && forall row :: row in r.rows ==> row in c.rows && HasDate(c.columns, name, row)
    ensures forall k :: 0 <= k < |r.rows| ==> Field(r.columns, r.rows[k], name).DateVal?
    ensures forall k :: 0 <= k < |r.rows| ==>
      Valid(Field(r.columns, r.rows[k], name).d) && InTimestampRange(Field(r.columns, r.rows[k], name).d)
  {
    forall k | 0 <= k < |r.rows|
      ensures Field(r.columns, r.rows[k], name).DateVal?
      ensures Valid(Field(r.columns, r.rows[k], name).d) && InTimestampRange(Field(r.columns, r.rows[k], name).d)
    {
      assert r.rows[k] in r.rows;
      var i :| 0 <= i < |c.rows| && c.rows[i] == r.rows[k];
      assert Field(c.columns, c.rows[i], name) == CoerceCell(Field(t.columns, t.rows[i], name));
    }
  }

  /** Headers `p` and `c` get past the first four steps: each has a date column and every required column. */
  predicate Admitted(p: seq<string>, c: seq<string>) {
    RawDateColumn(p).Some? && RawDateColumn(c).Some?
    && Suppliers.Required() <= ColumnSet(p) && Clients.Required() <= ColumnSet(c)
  }

  /**
   * Which stop the first four steps make on sheets with headers `p` and `c`:
   * the raise on a missing date column comes before the gate, and suppliers
   * come before clients each time.
   */
  function CheckError(p: seq<string>, c: seq<string>): Error {
    if RawDateColumn(p).None? then NoDateColumn(Suppliers)
    else if RawDateColumn(c).None? then NoDateColumn(Clients)
    else if !(Suppliers.Required() <= ColumnSet(p)) then MissingColumns(Suppliers, Suppliers.Required())
    else MissingColumns(Clients, Clients.Required())
  }

  /**
   * Steps 1 to 4 on both sheets: the raw copies for the archive are taken
   * (which raises on a sheet with neither date column, suppliers first),
   * then the gate stops on a missing required column, suppliers first.
   */
  function Check(provIn: Table, cliIn: Table): (r: Result<(Table, Table), Error>)
    requires Rectangular(provIn) && Rectangular(cliIn)
    ensures r.Success? <==> Admitted(Normalize(provIn).columns, Normalize(cliIn).columns)
    ensures r.Success? ==> r.value == (RawCopy(Suppliers, Normalize(provIn)).value, RawCopy(Clients, Normalize(cliIn)).value)
    ensures r.Failure? ==> r.error == CheckError(Normalize(provIn).columns, Normalize(cliIn).columns)
  {
    var prov0, cli0 := Normalize(provIn), Normalize(cliIn);
    var provRaw :- RawCopy(Suppliers, prov0);
    var cliRaw :- RawCopy(Clients, cli0);
    var provGated :- Gate(Suppliers, prov0);
    var cliGated :- Gate(Clients, cli0);
    Success((provRaw, cliRaw))
  }

  /** A sheet the raw copy raises on would have failed the gate: it has no date column. */
  lemma NoDateColumnFailsGate(src: Source, columns: seq<string>)
    requires RawDateColumn(columns).None?
    ensures !(src.Required() <= ColumnSet(columns))
  {
    assert src.DateColumn() in src.Required();
  }

  /** Some row holds NaT in column `name`. */
  predicate HasNaT(t: Table, name: string) {
    exists k :: 0 <= k < |t.rows| && Field(t.columns, t.rows[k], name).Missing?
  }

  /** Some row holds a day in column `name`. */
  predicate HasDay(t: Table, name: string) {
    exists k :: 0 <= k < |t.rows| && Field(t.columns, t.rows[k], name).DateVal?
  }

  /** The days of a column that holds one in every row, in row order. */
  function DaysIn(t: Table, name: string): (r: seq<Date>)
    requires AllDated(t, name)
    ensures |r| == |t.rows|
    ensures forall k :: 0 <= k < |t.rows| ==> r[k] == Field(t.columns, t.rows[k], name).d
  {
    seq(|t.rows|, k requires 0 <= k < |t.rows| => Field(t.columns, t.rows[k], name).d)
  }

  /** Every cell of column `name` is a day or NaT, as the conversion leaves it. */
  predicate Converted(t: Table, name: string) {
    forall k :: 0 <= k < |t.rows| ==> Field(t.columns, t.rows[k], name).DateVal? || Field(t.columns, t.rows[k], name).Missing?
  }

  lemma CoercedCells(t: Table, name: string)
    requires Rectangular(t)
    ensures Converted(CoerceColumn(t, name), name)
  {
  }

  /**
   * `df[name].min()` on a converted date column (an `object` column of
   * days and NaT): the earliest day when there is no NaT, NaN (`None`) when
   * there is no day at all. NaT among days raises: pandas fills NaT with
   * `+inf` before comparing, and a day does not compare with a float.
   */
  function ColumnMin(src: Source, c: Table, name: string): (r: Result<Option<Date>, Error>)
    requires Converted(c, name)
    ensures r.Failure? <==> HasNaT(c, name) && HasDay(c, name)
    ensures r.Failure? ==> r.error == NoDateRange(src)
    ensures r == Success(None) <==> !HasDay(c, name)
    ensures r.Success? && r.value.Some? <==> |c.rows| > 0 && AllDated(c, name)
    ensures r.Success? && r.value.Some? ==> exists k :: 0 <= k < |c.rows| && Field(c.columns, c.rows[k], name) == DateVal(r.value.value)
    ensures r.Success? && r.value.Some? ==> forall k :: 0 <= k < |c.rows| ==> NotAfter(r.value.value, Field(c.columns, c.rows[k], name).d)
  {
    assert |c.rows| > 0 && AllDated(c, name) ==> Field(c.columns, c.rows[0], name).DateVal?;
    if !HasDay(c, name) then Success(None)
    else if HasNaT(c, name) then Failure(NoDateRange(src))
    else
      var ds := DaysIn(c, name);
      var d := Earliest(ds);
      ghost var k :| 0 <= k < |ds| && ds[k] == d;
      assert Field(c.columns, c.rows[k], name) == DateVal(d);
      Success(Some(d))
  }

  /** The latest day of a column that holds one in every row, with the row that holds it. */
  lemma LatestDay(c: Table, name: string)
    requires AllDated(c, name) && |c.rows| > 0
    ensures exists k :: 0 <= k < |c.rows| && Field(c.columns, c.rows[k], name) == DateVal(Latest(DaysIn(c, name)))
    ensures forall i :: 0 <= i < |c.rows| ==> NotAfter(Field(c.columns, c.rows[i], name).d, Latest(DaysIn(c, name)))
  {
    var ds := DaysIn(c, name);
    var k :| 0 <= k < |ds| && ds[k] == Latest(ds);
    assert Field(c.columns, c.rows[k], name) == DateVal(Latest(ds));
  }

  /** Bounds of one column widen to any wider bounds. */
  lemma BoundsColumn(c: Table, name: string, first: Date, last: Date, lo: Date, hi: Date)
    requires AllDated(c, name) && NotAfter(lo, first) && NotAfter(last, hi)
    requires forall k :: 0 <= k < |c.rows| ==> NotAfter(first, Field(c.columns, c.rows[k], name).d)
    requires forall k :: 0 <= k < |c.rows| ==> NotAfter(Field(c.columns, c.rows[k], name).d, last)
    ensures forall k :: 0 <= k < |c.rows| ==>
      NotAfter(lo, Field(c.columns, c.rows[k], name).d) && NotAfter(Field(c.columns, c.rows[k], name).d, hi)
  {
    forall k | 0 <= k < |c.rows|
      ensures NotAfter(lo, Field(c.columns, c.rows[k], name).d) && NotAfter(Field(c.columns, c.rows[k], name).d, hi)
    {
      NotAfterTransitive(lo, first, Field(c.columns, c.rows[k], name).d);
      NotAfterTransitive(Field(c.columns, c.rows[k], name).d, last, hi);
    }
  }

  /**
   * Step 6 on the converted supplier and client frames `pc` and `cc`: the
   * default window of the date picker, from the earliest to the latest day
   * of both. The supplier column's `min` is taken first, then the client
   * column's; either raises on NaT among days, and `min` of a NaN (a column
   * with no day) with a day raises as well, as does the picker given NaN
   * for both. `max` can then no longer raise.
   */
  function DateRange(pc: Table, cc: Table): (r: Result<(Date, Date), Error>)
    requires Converted(pc, Suppliers.DateColumn()) && Converted(cc, Clients.DateColumn())
    ensures r.Success? <==> |pc.rows| > 0 && |cc.rows| > 0 && AllDated(pc, Suppliers.DateColumn()) && AllDated(cc, Clients.DateColumn())
    ensures r.Failure? ==> (r.error ==
      if HasNaT(pc, Suppliers.DateColumn()) && HasDay(pc, Suppliers.DateColumn()) then NoDateRange(Suppliers)
      else if HasNaT(cc, Clients.DateColumn()) && HasDay(cc, Clients.DateColumn()) then NoDateRange(Clients)
      else if !HasDay(pc, Suppliers.DateColumn()) then NoDateRange(Suppliers)
      else NoDateRange(Clients))
    ensures r.Success? ==> forall k :: 0 <= k < |pc.rows| ==>
      NotAfter(r.value.0, Field(pc.columns, pc.rows[k], Suppliers.DateColumn()).d) &&
      NotAfter(Field(pc.columns, pc.rows[k], Suppliers.DateColumn()).d, r.value.1)
    ensures r.Success? ==> forall k :: 0 <= k < |cc.rows| ==>
      NotAfter(r.value.0, Field(cc.columns, cc.rows[k], Clients.DateColumn()).d) &&
      NotAfter(Field(cc.columns, cc.rows[k], Clients.DateColumn()).d, r.value.1)
    ensures r.Success? ==>
      (exists k :: 0 <= k < |pc.rows| && Field(pc.columns, pc.rows[k], Suppliers.DateColumn()) == DateVal(r.value.0)) ||
      (exists k :: 0 <= k < |cc.rows| && Field(cc.columns, cc.rows[k], Clients.DateColumn()) == DateVal(r.value.0))
    ensures r.Success? ==>
      (exists k :: 0 <= k < |pc.rows| && Field(pc.columns, pc.rows[k], Suppliers.DateColumn()) == DateVal(r.value.1)) ||
      (exists k :: 0 <= k < |cc.rows| && Field(cc.columns, cc.rows[k], Clients.DateColumn()) == DateVal(r.value.1))
  {
    var provMin :- ColumnMin(Suppliers, pc, Suppliers.DateColumn());
    var cliMin :- ColumnMin(Clients, cc, Clients.DateColumn());
    if provMin.None? then Failure(NoDateRange(Suppliers))
    else if cliMin.None? then Failure(NoDateRange(Clients))
    else
      var provMax, cliMax := Latest(DaysIn(pc, Suppliers.DateColumn())), Latest(DaysIn(cc, Clients.DateColumn()));
      var lo, hi := Min(provMin.value, cliMin.value), Max(provMax, cliMax);
      LatestDay(pc, Suppliers.DateColumn());
      LatestDay(cc, Clients.DateColumn());
      BoundsColumn(pc, Suppliers.DateColumn(), provMin.value, provMax, lo, hi);
      BoundsColumn(cc, Clients.DateColumn(), cliMin.value, cliMax, lo, hi);
      Success((lo, hi))
  }

  /**
   * The window the picker offers first, from the earliest to the latest
   * day, keeps every converted row of both sheets and leaves both
   * archives empty.
   */
  lemma DefaultWindowKeepsAll(prov0: Table, cli0: Table, rate: real)
    requires Rectangular(prov0) && Rectangular(cli0)
    requires DateRange(CoerceColumn(prov0, Suppliers.DateColumn()), CoerceColumn(cli0, Clients.DateColumn())).Success?
    ensures var pc, cc := CoerceColumn(prov0, Suppliers.DateColumn()), CoerceColumn(cli0, Clients.DateColumn());
      var req := Request(DateRange(pc, cc).value.0, DateRange(pc, cc).value.1, rate);
      Windowed(Suppliers, req, prov0).rows == pc.rows && Windowed(Clients, req, cli0).rows == cc.rows
    ensures var pc, cc := CoerceColumn(prov0, Suppliers.DateColumn()), CoerceColumn(cli0, Clients.DateColumn());
      var start := DateRange(pc, cc).value.0;
      Archive(pc, Suppliers.DateColumn(), start).rows == [] && Archive(cc, Clients.DateColumn(), start).rows == []
  {
    var pc, cc := CoerceColumn(prov0, Suppliers.DateColumn()), CoerceColumn(cli0, Clients.DateColumn());
    var (start, end) := DateRange(pc, cc).value;
    CoveringWindow(pc, Suppliers.DateColumn(), start, end);
    CoveringWindow(cc, Clients.DateColumn(), start, end);
  }

  /** A window around the day of every row keeps every row and archives none. */
  lemma CoveringWindow(c: Table, name: string, start: Date, end: Date)
    requires AllDated(c, name)
    requires forall k :: 0 <= k < |c.rows| ==>
      NotAfter(start, Field(c.columns, c.rows[k], name).d) && NotAfter(Field(c.columns, c.rows[k], name).d, end)
    ensures KeepWindow(c, name, start, end).rows == c.rows
    ensures Archive(c, name, start).rows == []
  {
    KeepWindowAll(c, name, start, end);
    ArchiveNone(c, name, start);
  }

  /** Rounding leaves the date column as it was. */
  lemma RoundKeepsDates(src: Source, numeric: bool, w: Table)
    requires Rectangular(w) && RoundAmounts(src, numeric, w).Success?
    ensures var u := RoundAmounts(src, numeric, w).value;
      forall k :: 0 <= k < |w.rows| ==> Field(u.columns, u.rows[k], src.DateColumn()) == Field(w.columns, w.rows[k], src.DateColumn())
  {
    var u := RoundAmounts(src, numeric, w).value;
    forall k | 0 <= k < |w.rows| ensures Field(u.columns, u.rows[k], src.DateColumn()) == Field(w.columns, w.rows[k], src.DateColumn()) {
      RoundAmountsTouchesOnlyAmount(src, numeric, w, src.DateColumn(), k);
    }
  }

  /**
   * Steps 5, 7 and 8 for one role: the date column converted, the rows in
   * the window kept, the canonical amount column rounded. Whether that
   * column is numeric is a matter of the whole sheet `t`: a text or a day
   * in any row makes it an `object` column, which `round` refuses.
   */
  function Prepared(src: Source, req: Request, t: Table): (r: Result<Table, Error>)
    requires Rectangular(t)
    ensures var w := Windowed(src, req, t);
      r.Success? <==> (NumericColumn(t, src.AmountColumn())
        && forall k :: 0 <= k < |w.rows| ==> Field(w.columns, w.rows[k], src.AmountColumn()).Number?)
    ensures r.Success? ==> Rectangular(r.value) && |r.value.rows| == |Windowed(src, req, t).rows|
    ensures r.Success? && src.DateColumn() in t.columns && src.AmountColumn() in t.columns ==> r.value.columns == t.columns
    ensures var w := Windowed(src, req, t);
      r.Success? ==> forall k :: 0 <= k < |w.rows| ==>
        Field(r.value.columns, r.value.rows[k], src.DateColumn()) == Field(w.columns, w.rows[k], src.DateColumn())
    ensures r.Success? ==> AllDated(r.value, src.DateColumn())
    ensures r.Failure? ==> r.error == if NumericColumn(t, src.AmountColumn()) then AmountNotNumeric(src, src.AmountColumn())
                                      else ObjectAmountColumn(src, src.AmountColumn())
  {
    var w := Windowed(src, req, t);
    var numeric := NumericColumn(t, src.AmountColumn());
    var u :- RoundAmounts(src, numeric, w);
    RoundKeepsDates(src, numeric, w);
    Success(u)
  }

  /** The new `monto_local` column leaves the date column as it was. */
  lemma LocalKeepsDates(src: Source, t: Table, amtCol: string, rate: real)
    requires Rectangular(t) && AddLocalAmount(src, t, amtCol, rate).Success?
    ensures var u := AddLocalAmount(src, t, amtCol, rate).value.0;
      |u.rows| == |t.rows| &&
      forall k :: 0 <= k < |t.rows| ==> Field(u.columns, u.rows[k], src.DateColumn()) == Field(t.columns, t.rows[k], src.DateColumn())
    ensures AllDated(t, src.DateColumn()) ==> AllDated(AddLocalAmount(src, t, amtCol, rate).value.0, src.DateColumn())
  {
  }

  /**
   * Steps 9 and 10 on both roles: the amount column looked up in each, then
   * `monto_local` computed from it, suppliers first.
   */
  function Localized(req: Request, provR: Table, cliR: Table): (r: Result<((Table, seq<int>), (Table, seq<int>)), Error>)
    requires Rectangular(provR) && Rectangular(cliR)
    ensures var pc, cc := FindAmountColumn(Suppliers, provR.columns), FindAmountColumn(Clients, cliR.columns);
      r.Success? <==> (pc.Some? && cc.Some?
        && AddLocalAmount(Suppliers, provR, pc.value, req.rate).Success? && AddLocalAmount(Clients, cliR, cc.value, req.rate).Success?)
    ensures var pc, cc := FindAmountColumn(Suppliers, provR.columns), FindAmountColumn(Clients, cliR.columns);
      r.Success? ==> r.value == (AddLocalAmount(Suppliers, provR, pc.value, req.rate).value, AddLocalAmount(Clients, cliR, cc.value, req.rate).value)
    ensures r.Failure? ==> (r.error == AmountColumnsNotFound <==>
      FindAmountColumn(Suppliers, provR.columns).None? || FindAmountColumn(Clients, cliR.columns).None?)
    ensures r.Success? ==> |r.value.0.0.rows| == |provR.rows| && |r.value.1.0.rows| == |cliR.rows|
    ensures r.Success? ==> forall k :: 0 <= k < |provR.rows| ==>
      Field(r.value.0.0.columns, r.value.0.0.rows[k], Suppliers.DateColumn()) == Field(provR.columns, provR.rows[k], Suppliers.DateColumn())
    ensures r.Success? ==> forall k :: 0 <= k < |cliR.rows| ==>
      Field(r.value.1.0.columns, r.value.1.0.rows[k], Clients.DateColumn()) == Field(cliR.columns, cliR.rows[k], Clients.DateColumn())
    ensures r.Success? ==> |r.value.0.1| == |r.value.0.0.rows| && |r.value.1.1| == |r.value.1.0.rows|
    ensures r.Success? && AllDated(provR, Suppliers.DateColumn()) ==> AllDated(r.value.0.0, Suppliers.DateColumn())
    ensures r.Success? && AllDated(cliR, Clients.DateColumn()) ==> AllDated(r.value.1.0, Clients.DateColumn())
  {
    var provCol := FindAmountColumn(Suppliers, provR.columns);
    var cliCol := FindAmountColumn(Clients, cliR.columns);
    if provCol.None? || cliCol.None? then Failure(AmountColumnsNotFound)
    else
      var provLocal :- AddLocalAmount(Suppliers, provR, provCol.value, req.rate);
      var cliLocal :- AddLocalAmount(Clients, cliR, cliCol.value, req.rate);
      LocalKeepsDates(Suppliers, provR, provCol.value, req.rate);
      LocalKeepsDates(Clients, cliR, cliCol.value, req.rate);
      Success((provLocal, cliLocal))
  }

  /** `prov_tab` / `cli_tab` before the labels: each record's name cell, day and `monto_local`. */
  function Entries(src: Source, t: Table, amounts: seq<int>): (es: seq<Entry>)
    requires AllDated(t, src.DateColumn()) && |amounts| == |t.rows|
    ensures |es| == |t.rows|
    ensures forall k :: 0 <= k < |t.rows| ==> es[k].date == Field(t.columns, t.rows[k], src.DateColumn()).d
    ensures forall k :: 0 <= k < |t.rows| ==> es[k].name == Field(t.columns, t.rows[k], src.NameColumn())
    ensures forall k :: 0 <= k < |t.rows| ==> es[k].amount == amounts[k]
  {
    seq(|t.rows|, k requires 0 <= k < |t.rows| =>
      Entry(Field(t.columns, t.rows[k], src.NameColumn()), Field(t.columns, t.rows[k], src.DateColumn()).d, amounts[k]))
  }

  /** Everything one run produces. */
  datatype Outputs = Outputs(
    suppliers: Table, clients: Table,
    supplierEntries: seq<Entry>, clientEntries: seq<Entry>,
    summary: Summary.Matrix,
    archiveSuppliers: Table, archiveClients: Table,
    ledger: Ledger.Report)

  /** Steps 5 and 6 on the normalised sheets: both date columns converted, then their range. */
  function SheetRange(prov0: Table, cli0: Table): (r: Result<(Date, Date), Error>)
    requires Rectangular(prov0) && Rectangular(cli0)
    ensures var pc, cc := CoerceColumn(prov0, Suppliers.DateColumn()), CoerceColumn(cli0, Clients.DateColumn());
      r.Success? <==> |pc.rows| > 0 && |cc.rows| > 0 && AllDated(pc, Suppliers.DateColumn()) && AllDated(cc, Clients.DateColumn())
    ensures r.Failure? ==> r.error.NoDateRange?
  {
    CoercedCells(prov0, Suppliers.DateColumn());
    CoercedCells(cli0, Clients.DateColumn());
    DateRange(CoerceColumn(prov0, Suppliers.DateColumn()), CoerceColumn(cli0, Clients.DateColumn()))
  }

  /**
   * Steps 7 to 10 for both roles, on sheets that passed the gate. Since the
   * canonical amount column is there, the lookup always finds a column; only
   * an `object` amount column, an amount that is not a number, or a window
   * with no row can stop them.
   */
  function Selected(req: Request, prov0: Table, cli0: Table): (r: Result<((Table, seq<int>), (Table, seq<int>)), Error>)
    requires Rectangular(prov0) && Rectangular(cli0)
    requires Gate(Suppliers, prov0).Success? && Gate(Clients, cli0).Success?
    ensures r.Failure? ==> r.error.ObjectAmountColumn? || r.error.AmountNotNumeric? || r.error.EmptyWindow?
    ensures r.Success? ==> |r.value.0.1| > 0 && |r.value.1.1| > 0
    ensures r.Success? ==> |r.value.0.1| == |r.value.0.0.rows| && |r.value.1.1| == |r.value.1.0.rows|
    ensures r.Success? ==> AllDated(r.value.0.0, Suppliers.DateColumn()) && AllDated(r.value.1.0, Clients.DateColumn())
  {
    var provR :- Prepared(Suppliers, req, prov0);
    var cliR :- Prepared(Clients, req, cli0);
    GatePassedFindsAmountColumn(Suppliers, prov0);
    GatePassedFindsAmountColumn(Clients, cli0);
    var locals :- Localized(req, provR, cliR);
    Success(locals)
  }

  /**
   * Steps 5 to 10 for both roles, on sheets that passed the gate: the date
   * range of step 6, which stops the run on a date column with NaT or with
   * no row, then the steps that follow it. The range only seeds the
   * picker; the window is the one `req` holds.
   */
  function Conversions(req: Request, prov0: Table, cli0: Table): (r: Result<((Table, seq<int>), (Table, seq<int>)), Error>)
    requires Rectangular(prov0) && Rectangular(cli0)
    requires Gate(Suppliers, prov0).Success? && Gate(Clients, cli0).Success?
    ensures r.Failure? ==> r.error.NoDateRange? || r.error.ObjectAmountColumn? || r.error.AmountNotNumeric? || r.error.EmptyWindow?
    ensures SheetRange(prov0, cli0).Failure? ==> r == Failure(SheetRange(prov0, cli0).error)
    ensures SheetRange(prov0, cli0).Success? ==> r == Selected(req, prov0, cli0)
    ensures r.Success? ==> |r.value.0.1| > 0 && |r.value.1.1| > 0
    ensures r.Success? ==> |r.value.0.1| == |r.value.0.0.rows| && |r.value.1.1| == |r.value.1.0.rows|
    ensures r.Success? ==> AllDated(r.value.0.0, Suppliers.DateColumn()) && AllDated(r.value.1.0, Clients.DateColumn())
  {
    var range :- SheetRange(prov0, cli0);
    Selected(req, prov0, cli0)
  }

  /** The date of each converted row is the one the window kept. */
  lemma ConversionsKeepDates(req: Request, prov0: Table, cli0: Table)
    requires Rectangular(prov0) && Rectangular(cli0)
    requires Gate(Suppliers, prov0).Success? && Gate(Clients, cli0).Success?
    requires Conversions(req, prov0, cli0).Success?
    ensures var w, t := Windowed(Suppliers, req, prov0), Conversions(req, prov0, cli0).value.0.0;
      |t.rows| == |w.rows| && forall k :: 0 <= k < |w.rows| ==>
        Field(t.columns, t.rows[k], Suppliers.DateColumn()) == Field(w.columns, w.rows[k], Suppliers.DateColumn())
    ensures var w, t := Windowed(Clients, req, cli0), Conversions(req, prov0, cli0).value.1.0;
      |t.rows| == |w.rows| && forall k :: 0 <= k < |w.rows| ==>
        Field(t.columns, t.rows[k], Clients.DateColumn()) == Field(w.columns, w.rows[k], Clients.DateColumn())
  {
    var provR, cliR := Prepared(Suppliers, req, prov0).value, Prepared(Clients, req, cli0).value;
    GatePassedFindsAmountColumn(Suppliers, prov0);
    GatePassedFindsAmountColumn(Clients, cli0);
    assert Conversions(req, prov0, cli0) == Selected(req, prov0, cli0) == Localized(req, provR, cliR);
    var out := Conversions(req, prov0, cli0).value;
    var wp, wc := Windowed(Suppliers, req, prov0), Windowed(Clients, req, cli0);
    forall k | 0 <= k < |wp.rows|
      ensures Field(out.0.0.columns, out.0.0.rows[k], Suppliers.DateColumn()) == Field(wp.columns, wp.rows[k], Suppliers.DateColumn())
    {
      assert Field(out.0.0.columns, out.0.0.rows[k], Suppliers.DateColumn()) == Field(provR.columns, provR.rows[k], Suppliers.DateColumn());
    }
    forall k | 0 <= k < |wc.rows|
      ensures Field(out.1.0.columns, out.1.0.rows[k], Clients.DateColumn()) == Field(wc.columns, wc.rows[k], Clients.DateColumn())
    {
      assert Field(out.1.0.columns, out.1.0.rows[k], Clients.DateColumn()) == Field(cliR.columns, cliR.rows[k], Clients.DateColumn());
    }
  }

  /**
   * Step 13 for one role: `df_raw[df_raw[col] < start_date]` on the raw
   * copy, `col` being the role's own date column. When the raw copy
   * converted the other date column instead (a client sheet that also has
   * `vencimiento_real`), `col` still holds what `read_excel` gave, and
   * pandas refuses to order that against a `datetime.date` unless there is
   * no row to compare.
   */
  function Archived(src: Source, raw: Table, start: Date): (r: Result<Table, Error>)
    ensures r.Success? <==> RawDateColumn(raw.columns) == Some(src.DateColumn()) || |raw.rows| == 0
    ensures r.Success? ==> r.value == Archive(raw, src.DateColumn(), start)
    ensures r.Failure? ==> r.error == RawDatesNotComparable(src)
  {
    if RawDateColumn(raw.columns) == Some(src.DateColumn()) || |raw.rows| == 0 then Success(Archive(raw, src.DateColumn(), start))
    else Failure(RawDatesNotComparable(src))
  }

  /** Whether each sheet's name column has dtype `object`, supplier then client. */
  function ObjectNames(prov0: Table, cli0: Table): (bool, bool) {
    (ObjectColumn(prov0, Suppliers.NameColumn()), ObjectColumn(cli0, Clients.NameColumn()))
  }

  /**
   * Steps 12 to 14: the records and the summary, the archives of the raw
   * rows before the window, suppliers first, and the ledger, whose labels
   * can stop the run; `names` says whether each name column is `object`.
   */
  function Outcome(req: Request, raws: (Table, Table), names: (bool, bool), locals: ((Table, seq<int>), (Table, seq<int>))): (r: Result<Outputs, Error>)
    requires AllDated(locals.0.0, Suppliers.DateColumn()) && |locals.0.1| == |locals.0.0.rows|
    requires AllDated(locals.1.0, Clients.DateColumn()) && |locals.1.1| == |locals.1.0.rows|
    ensures var provEs, cliEs := Entries(Suppliers, locals.0.0, locals.0.1), Entries(Clients, locals.1.0, locals.1.1);
      r.Success? <==> Archived(Suppliers, raws.0, req.start).Success? && Archived(Clients, raws.1, req.start).Success?
                      && Ledger.BuildFromSheets(names, provEs, cliEs).Success?
    ensures r.Failure? ==> r.error.RawDatesNotComparable? || r.error.NameNotText?
    ensures Archived(Suppliers, raws.0, req.start).Failure? ==> r == Failure(RawDatesNotComparable(Suppliers))
    ensures Archived(Suppliers, raws.0, req.start).Success? && Archived(Clients, raws.1, req.start).Failure? ==>
      r == Failure(RawDatesNotComparable(Clients))
    ensures r.Success? ==> r.value.suppliers == locals.0.0 && r.value.clients == locals.1.0
    ensures r.Success? ==> r.value.supplierEntries == Entries(Suppliers, locals.0.0, locals.0.1)
    ensures r.Success? ==> r.value.clientEntries == Entries(Clients, locals.1.0, locals.1.1)
    ensures r.Success? ==> r.value.summary == Summary.Consolidate(r.value.supplierEntries, r.value.clientEntries)
    ensures r.Success? ==> Ledger.Build(r.value.supplierEntries, r.value.clientEntries).Success?
    ensures r.Success? ==> r.value.ledger == Ledger.Build(r.value.supplierEntries, r.value.clientEntries).value
    ensures r.Success? ==> r.value.archiveSuppliers == Archive(raws.0, Suppliers.DateColumn(), req.start)
    ensures r.Success? ==> r.value.archiveClients == Archive(raws.1, Clients.DateColumn(), req.start)
  {
    var provEs := Entries(Suppliers, locals.0.0, locals.0.1);
    var cliEs := Entries(Clients, locals.1.0, locals.1.1);
    var summary := Summary.Consolidate(provEs, cliEs);
    var provArchive :- Archived(Suppliers, raws.0, req.start);
    var cliArchive :- Archived(Clients, raws.1, req.start);
    var rep :- Ledger.BuildFromSheets(names, provEs, cliEs);
    Success(Outputs(locals.0.0, locals.1.0, provEs, cliEs, summary, provArchive, cliArchive, rep))
  }

  /**
   * The run, step by step in the order the script takes them; the first
   * step that stops or raises decides the error. A finished run has
   * records of both roles, its summary is their consolidation and its
   * ledger their report.
   */
  function Consolidation(req: Request, provIn: Table, cliIn: Table): (r: Result<Outputs, Error>)
    requires Rectangular(provIn) && Rectangular(cliIn)
    ensures Check(provIn, cliIn).Failure? ==> r == Failure(Check(provIn, cliIn).error)
    ensures r.Success? ==> Check(provIn, cliIn).Success?
    ensures r.Success? ==> |r.value.supplierEntries| > 0 && |r.value.clientEntries| > 0
    ensures r.Success? ==> r.value.summary == Summary.Consolidate(r.value.supplierEntries, r.value.clientEntries)
    ensures r.Success? ==> Ledger.Build(r.value.supplierEntries, r.value.clientEntries).Success?
    ensures r.Success? ==> r.value.ledger == Ledger.Build(r.value.supplierEntries, r.value.clientEntries).value
  {
    var raws :- Check(provIn, cliIn);
    var locals :- Conversions(req, Normalize(provIn), Normalize(cliIn));
    Outcome(req, raws, ObjectNames(Normalize(provIn), Normalize(cliIn)), locals)
  }

  /**
   * The stop order of the first four steps: a sheet with neither date
   * column raises, suppliers first; then the gate stops on a missing
   * required column, suppliers first.
   */
  lemma CheckErrorOrder(p: seq<string>, c: seq<string>)
    requires !Admitted(p, c)
    ensures CheckError(p, c) == NoDateColumn(Suppliers) <==> RawDateColumn(p).None?
    ensures CheckError(p, c) == NoDateColumn(Clients) <==> RawDateColumn(p).Some? && RawDateColumn(c).None?
    ensures CheckError(p, c) == MissingColumns(Suppliers, Suppliers.Required()) <==>
      RawDateColumn(p).Some? && RawDateColumn(c).Some? && !(Suppliers.Required() <= ColumnSet(p))
    ensures CheckError(p, c) == MissingColumns(Clients, Clients.Required()) <==>
      RawDateColumn(p).Some? && RawDateColumn(c).Some? && Suppliers.Required() <= ColumnSet(p) && !(Clients.Required() <= ColumnSet(c))
  {
  }

  /** A run whose headers are not admitted stops in the first four steps, with the error those steps make. */
  lemma StopOrder(req: Request, provIn: Table, cliIn: Table)
    requires Rectangular(provIn) && Rectangular(cliIn)
    ensures var p, c := Normalize(provIn).columns, Normalize(cliIn).columns;
      !Admitted(p, c) ==> Consolidation(req, provIn, cliIn) == Failure(CheckError(p, c))
  {
  }

  /**
   * Past the first four steps, only a date column without a range, an
   * `object` amount column, a non-numeric amount, a window with no row, a
   * raw date column that cannot be compared or a name column that cannot
   * be labelled can stop a run.
   */
  lemma LaterStops(req: Request, provIn: Table, cliIn: Table)
    requires Rectangular(provIn) && Rectangular(cliIn)
    requires Admitted(Normalize(provIn).columns, Normalize(cliIn).columns)
    ensures var r := Consolidation(req, provIn, cliIn);
      r.Failure? ==> r.error.NoDateRange? || r.error.ObjectAmountColumn? || r.error.AmountNotNumeric? || r.error.EmptyWindow?
                     || r.error.RawDatesNotComparable? || r.error.NameNotText?
  {
    CheckContinues(req, provIn, cliIn);
  }

  /** The "amount columns not found" stop is never reached. */
  lemma NeverAmountColumnsNotFound(req: Request, provIn: Table, cliIn: Table)
    requires Rectangular(provIn) && Rectangular(cliIn)
    ensures Consolidation(req, provIn, cliIn) != Failure(AmountColumnsNotFound)
  {
    if Check(provIn, cliIn).Success? {
      LaterStops(req, provIn, cliIn);
    }
  }

  /** A run whose first four steps stop ends with their error. */
  lemma CheckStops(req: Request, provIn: Table, cliIn: Table)
    requires Rectangular(provIn) && Rectangular(cliIn)
    requires Check(provIn, cliIn).Failure?
    ensures Consolidation(req, provIn, cliIn) == Failure(Check(provIn, cliIn).error)
  {
  }

  /**
   * Steps 5 to 14 on normalised sheets that passed the gate, with the raw
   * copies `raws` for the archive. Only a date column without a range, an
   * `object` amount column, an amount that is not a number, a window with
   * no row, a raw date column that cannot be compared or a name column
   * that cannot be labelled can stop them.
   */
  function Continue(req: Request, prov0: Table, cli0: Table, raws: (Table, Table)): (r: Result<Outputs, Error>)
    requires Rectangular(prov0) && Rectangular(cli0)
    requires Gate(Suppliers, prov0).Success? && Gate(Clients, cli0).Success?
    ensures r.Failure? ==> r.error.NoDateRange? || r.error.ObjectAmountColumn? || r.error.AmountNotNumeric? || r.error.EmptyWindow?
                           || r.error.RawDatesNotComparable? || r.error.NameNotText?
    ensures r.Success? ==> |r.value.supplierEntries| > 0 && |r.value.clientEntries| > 0
  {
    var locals :- Conversions(req, prov0, cli0);
    Outcome(req, raws, ObjectNames(prov0, cli0), locals)
  }

  /** Sheets the first four steps let through pass the gate. */
  lemma CheckPassesGate(provIn: Table, cliIn: Table)
    requires Rectangular(provIn) && Rectangular(cliIn)
    requires Check(provIn, cliIn).Success?
    ensures Gate(Suppliers, Normalize(provIn)).Success? && Gate(Clients, Normalize(cliIn)).Success?
  {
  }

  /** A run whose first four steps let both sheets through continues from their raw copies. */
  lemma CheckContinues(req: Request, provIn: Table, cliIn: Table)
    requires Rectangular(provIn) && Rectangular(cliIn)
    requires Check(provIn, cliIn).Success?
    ensures Gate(Suppliers, Normalize(provIn)).Success? && Gate(Clients, Normalize(cliIn)).Success?
    ensures Consolidation(req, provIn, cliIn) == Continue(req, Normalize(provIn), Normalize(cliIn), Check(provIn, cliIn).value)
  {
    CheckPassesGate(provIn, cliIn);
  }

  /** A successful run got past every stage, each with the value it returned. */
  lemma SuccessStages(req: Request, provIn: Table, cliIn: Table)
    requires Rectangular(provIn) && Rectangular(cliIn)
    requires Consolidation(req, provIn, cliIn).Success?
    ensures Check(provIn, cliIn).Success?
    ensures Gate(Suppliers, Normalize(provIn)).Success? && Gate(Clients, Normalize(cliIn)).Success?
    ensures Conversions(req, Normalize(provIn), Normalize(cliIn)).Success?
    ensures Consolidation(req, provIn, cliIn)
         == Outcome(req, Check(provIn, cliIn).value, ObjectNames(Normalize(provIn), Normalize(cliIn)),
                    Conversions(req, Normalize(provIn), Normalize(cliIn)).value)
  {
  }

  /**
   * A window without a supplier row or without a client row stops the run:
   * every finished run has records of both roles.
   */
  lemma EmptyWindowStops(req: Request, provIn: Table, cliIn: Table)
    requires Rectangular(provIn) && Rectangular(cliIn)
    requires Windowed(Suppliers, req, Normalize(provIn)).rows == [] || Windowed(Clients, req, Normalize(cliIn)).rows == []
    ensures Consolidation(req, provIn, cliIn).Failure?
  {
    if Consolidation(req, provIn, cliIn).Success? {
      SupplierParts(req, provIn, cliIn);
      ClientParts(req, provIn, cliIn);
      SuccessStages(req, provIn, cliIn);
      CheckContinues(req, provIn, cliIn);
      assert false;
    }
  }

  /**
   * Both converted date columns of a finished run hold a day in every row,
   * and neither is empty: step 6 stops on anything else.
   */
  lemma SuccessDated(req: Request, provIn: Table, cliIn: Table)
    requires Rectangular(provIn) && Rectangular(cliIn)
    requires Consolidation(req, provIn, cliIn).Success?
    ensures var pc := CoerceColumn(Normalize(provIn), Suppliers.DateColumn());
      |pc.rows| > 0 && AllDated(pc, Suppliers.DateColumn())
    ensures var cc := CoerceColumn(Normalize(cliIn), Clients.DateColumn());
      |cc.rows| > 0 && AllDated(cc, Clients.DateColumn())
  {
    SuccessStages(req, provIn, cliIn);
  }

  /** So every row of both converted sheets counts among the dated rows. */
  lemma SuccessRowsDated(req: Request, provIn: Table, cliIn: Table)
    requires Rectangular(provIn) && Rectangular(cliIn)
    requires Consolidation(req, provIn, cliIn).Success?
    ensures var pc := CoerceColumn(Normalize(provIn), Suppliers.DateColumn());
      DatedRows(pc, Suppliers.DateColumn()) == pc.rows
    ensures var cc := CoerceColumn(Normalize(cliIn), Clients.DateColumn());
      DatedRows(cc, Clients.DateColumn()) == cc.rows
  {
    SuccessDated(req, provIn, cliIn);
    AllDatedRows(CoerceColumn(Normalize(provIn), Suppliers.DateColumn()), Suppliers.DateColumn());
    AllDatedRows(CoerceColumn(Normalize(cliIn), Clients.DateColumn()), Clients.DateColumn());
  }

  lemma AllDatedRows(c: Table, name: string)
    requires AllDated(c, name)
    ensures DatedRows(c, name) == c.rows
  {
    DatedRowsAll(c, name);
  }

  /**
   * A date that converts to NaT in either sheet, or a sheet with no row,
   * stops the run: past the first four steps, with the error of step 6.
   */
  lemma UndatedStops(req: Request, provIn: Table, cliIn: Table)
    requires Rectangular(provIn) && Rectangular(cliIn)
    requires var pc, cc := CoerceColumn(Normalize(provIn), Suppliers.DateColumn()), CoerceColumn(Normalize(cliIn), Clients.DateColumn());
      HasNaT(pc, Suppliers.DateColumn()) || HasNaT(cc, Clients.DateColumn()) || |pc.rows| == 0 || |cc.rows| == 0
    ensures Consolidation(req, provIn, cliIn).Failure?
    ensures Check(provIn, cliIn).Success? ==>
        SheetRange(Normalize(provIn), Normalize(cliIn)).Failure? &&
        Consolidation(req, provIn, cliIn) == Failure(SheetRange(Normalize(provIn), Normalize(cliIn)).error)
  {
    if Check(provIn, cliIn).Success? {
      CheckContinues(req, provIn, cliIn);
    } else {
      CheckStops(req, provIn, cliIn);
    }
  }

  /**
   * A name column whose dtype is not `object` (numeric or `datetime64`, a
   * column left blank in every row among them) stops the run.
   */
  lemma NameColumnDtypeStops(req: Request, provIn: Table, cliIn: Table)
    requires Rectangular(provIn) && Rectangular(cliIn)
    requires !ObjectColumn(Normalize(provIn), Suppliers.NameColumn()) || !ObjectColumn(Normalize(cliIn), Clients.NameColumn())
    ensures Consolidation(req, provIn, cliIn).Failure?
  {
    if Consolidation(req, provIn, cliIn).Success? {
      SuccessStages(req, provIn, cliIn);
      assert false;
    }
  }

  /**
   * A client sheet that also has a `vencimiento_real` column stops the run:
   * its raw copy converts that column, and the archive then compares the
   * unconverted `fecha_de_cobro` with the start day. Once steps 5 to 10
   * have passed, that is the error.
   */
  lemma ClientDueDateStops(req: Request, provIn: Table, cliIn: Table)
    requires Rectangular(provIn) && Rectangular(cliIn)
    requires Suppliers.DateColumn() in Normalize(cliIn).columns
    ensures Consolidation(req, provIn, cliIn).Failure?
    ensures Check(provIn, cliIn).Success? ==>
      Conversions(req, Normalize(provIn), Normalize(cliIn)).Success? ==>
      Consolidation(req, provIn, cliIn) == Failure(RawDatesNotComparable(Clients))
  {
    if Check(provIn, cliIn).Success? {
      CheckPassesGate(provIn, cliIn);
      var prov0, cli0 := Normalize(provIn), Normalize(cliIn);
      var raws := Check(provIn, cliIn).value;
      assert raws.1 == CoerceColumn(cli0, Suppliers.DateColumn());
      assert RawDateColumn(raws.1.columns) == Some(Suppliers.DateColumn());
      var conv := Conversions(req, prov0, cli0);
      if conv.Success? {
        assert |CoerceColumn(cli0, Clients.DateColumn()).rows| > 0;
        assert |raws.1.rows| > 0;
        assert Archived(Clients, raws.1, req.start).Failure?;
        assert Consolidation(req, provIn, cliIn) == Outcome(req, raws, ObjectNames(prov0, cli0), conv.value);
      }
    }
  }

  /**
   * The supplier records of a successful run are the rows the window kept,
   * in order, each with the day of its date column.
   */
  lemma SupplierParts(req: Request, provIn: Table, cliIn: Table)
    requires Rectangular(provIn) && Rectangular(cliIn)
    requires Consolidation(req, provIn, cliIn).Success?
    ensures var out, w := Consolidation(req, provIn, cliIn).value, Windowed(Suppliers, req, Normalize(provIn));
      |out.suppliers.rows| == |w.rows| && |out.supplierEntries| == |w.rows|
      && forall k :: 0 <= k < |w.rows| ==>
           DateVal(out.supplierEntries[k].date) == Field(w.columns, w.rows[k], Suppliers.DateColumn())
  {
    SuccessStages(req, provIn, cliIn);
    GatePassedFindsAmountColumn(Suppliers, Normalize(provIn));
    ConversionsKeepDates(req, Normalize(provIn), Normalize(cliIn));
  }

  /** A finished run's supplier archive is taken from the raw rows converted on `vencimiento_real`. */
  lemma SupplierArchive(req: Request, provIn: Table, cliIn: Table)
    requires Rectangular(provIn) && Rectangular(cliIn)
    requires Consolidation(req, provIn, cliIn).Success?
    ensures Consolidation(req, provIn, cliIn).value.archiveSuppliers
         == Archive(CoerceColumn(Normalize(provIn), Suppliers.DateColumn()), Suppliers.DateColumn(), req.start)
  {
    SuccessStages(req, provIn, cliIn);
  }

  /** The same for the client records. */
  lemma ClientParts(req: Request, provIn: Table, cliIn: Table)
    requires Rectangular(provIn) && Rectangular(cliIn)
    requires Consolidation(req, provIn, cliIn).Success?
    ensures var out, w := Consolidation(req, provIn, cliIn).value, Windowed(Clients, req, Normalize(cliIn));
      |out.clients.rows| == |w.rows| && |out.clientEntries| == |w.rows|
      && forall k :: 0 <= k < |w.rows| ==>
           DateVal(out.clientEntries[k].date) == Field(w.columns, w.rows[k], Clients.DateColumn())
  {
    SuccessStages(req, provIn, cliIn);
    ConversionsKeepDates(req, Normalize(provIn), Normalize(cliIn));
  }

  /**
   * A finished run's client sheet has no `vencimiento_real` column, so the
   * client archive is taken from the raw rows converted on `fecha_de_cobro`.
   */
  lemma ClientArchive(req: Request, provIn: Table, cliIn: Table)
    requires Rectangular(provIn) && Rectangular(cliIn)
    requires Consolidation(req, provIn, cliIn).Success?
    ensures Suppliers.DateColumn() !in Normalize(cliIn).columns
    ensures Consolidation(req, provIn, cliIn).value.archiveClients
         == Archive(CoerceColumn(Normalize(cliIn), Clients.DateColumn()), Clients.DateColumn(), req.start)
  {
    if Suppliers.DateColumn() in Normalize(cliIn).columns {
      ClientDueDateStops(req, provIn, cliIn);
      assert false;
    }
    SuccessStages(req, provIn, cliIn);
  }

  /** Records lie in the window when the rows they come from do. */
  lemma EntriesInWindow(req: Request, es: seq<Entry>, w: Table, name: string)
    requires |es| == |w.rows|
    requires forall k :: 0 <= k < |w.rows| ==> DateVal(es[k].date) == Field(w.columns, w.rows[k], name)
    requires forall k :: 0 <= k < |w.rows| ==>
      NotAfter(req.start, Field(w.columns, w.rows[k], name).d) && NotAfter(Field(w.columns, w.rows[k], name).d, req.end)
    ensures forall e :: e in es ==> NotAfter(req.start, e.date) && NotAfter(e.date, req.end)
  {
    forall e | e in es ensures NotAfter(req.start, e.date) && NotAfter(e.date, req.end) {
      var k :| 0 <= k < |es| && es[k] == e;
      assert Field(w.columns, w.rows[k], name).d == e.date;
    }
  }

  /** Every summary column is the day of some record. */
  lemma SummaryDaysInWindow(req: Request, prov: seq<Entry>, cli: seq<Entry>)
    requires forall e :: e in prov + cli ==> NotAfter(req.start, e.date) && NotAfter(e.date, req.end)
    ensures forall d :: d in Summary.Consolidate(prov, cli).columns ==> NotAfter(req.start, d) && NotAfter(d, req.end)
  {
    forall d | d in Summary.Consolidate(prov, cli).columns ensures NotAfter(req.start, d) && NotAfter(d, req.end) {
      if d in Summary.Days(prov) {
        var k :| 0 <= k < |prov| && Summary.DatePairs(prov)[k].0 == d;
        assert prov[k] in prov + cli;
      } else {
        var k :| 0 <= k < |cli| && Summary.DatePairs(cli)[k].0 == d;
        assert cli[k] in prov + cli;
      }
    }
  }

  /** Every record behind the reports lies in the window, and so does every day of the summary. */
  lemma RecordsInWindow(req: Request, provIn: Table, cliIn: Table)
    requires Rectangular(provIn) && Rectangular(cliIn)
    requires Consolidation(req, provIn, cliIn).Success?
    ensures var out := Consolidation(req, provIn, cliIn).value;
      forall e :: e in out.supplierEntries + out.clientEntries ==> NotAfter(req.start, e.date) && NotAfter(e.date, req.end)
    ensures var out := Consolidation(req, provIn, cliIn).value;
      forall d :: d in out.summary.columns ==> NotAfter(req.start, d) && NotAfter(d, req.end)
  {
    var out := Consolidation(req, provIn, cliIn).value;
    SupplierParts(req, provIn, cliIn);
    ClientParts(req, provIn, cliIn);
    EntriesInWindow(req, out.supplierEntries, Windowed(Suppliers, req, Normalize(provIn)), Suppliers.DateColumn());
    EntriesInWindow(req, out.clientEntries, Windowed(Clients, req, Normalize(cliIn)), Clients.DateColumn());
    SuccessStages(req, provIn, cliIn);
    SummaryDaysInWindow(req, out.supplierEntries, out.clientEntries);
  }

  /**
   * With `start <= end`, the supplier rows of the sheet, every one of them
   * dated, are split without loss or overlap between the archive (before the window, as
   * read), the rows the window kept (which the reports are built from) and
   * the rows after the window.
   */
  lemma SupplierRowsSplit(req: Request, provIn: Table, cliIn: Table)
    requires Rectangular(provIn) && Rectangular(cliIn)
    requires Consolidation(req, provIn, cliIn).Success?
    requires NotAfter(req.start, req.end)
    ensures var out, c := Consolidation(req, provIn, cliIn).value, CoerceColumn(Normalize(provIn), Suppliers.DateColumn());
      multiset(DatedRows(c, Suppliers.DateColumn()))
        == multiset(out.archiveSuppliers.rows) + multiset(Windowed(Suppliers, req, Normalize(provIn)).rows)
         + multiset(Later(c, Suppliers.DateColumn(), req.end))
    ensures var out, c := Consolidation(req, provIn, cliIn).value, CoerceColumn(Normalize(provIn), Suppliers.DateColumn());
      |DatedRows(c, Suppliers.DateColumn())|
        == |out.archiveSuppliers.rows| + |out.suppliers.rows| + |Later(c, Suppliers.DateColumn(), req.end)|
    ensures var c := CoerceColumn(Normalize(provIn), Suppliers.DateColumn());
      DatedRows(c, Suppliers.DateColumn()) == c.rows
  {
    SuccessRowsDated(req, provIn, cliIn);
    SupplierParts(req, provIn, cliIn);
    SupplierArchive(req, provIn, cliIn);
    WindowPartition(CoerceColumn(Normalize(provIn), Suppliers.DateColumn()), Suppliers.DateColumn(), req.start, req.end);
  }

  /** The same split for the client rows. */
  lemma ClientRowsSplit(req: Request, provIn: Table, cliIn: Table)
    requires Rectangular(provIn) && Rectangular(cliIn)
    requires Consolidation(req, provIn, cliIn).Success?
    requires NotAfter(req.start, req.end)
    ensures var out, c := Consolidation(req, provIn, cliIn).value, CoerceColumn(Normalize(cliIn), Clients.DateColumn());
      multiset(DatedRows(c, Clients.DateColumn()))
        == multiset(out.archiveClients.rows) + multiset(Windowed(Clients, req, Normalize(cliIn)).rows)
         + multiset(Later(c, Clients.DateColumn(), req.end))
    ensures var out, c := Consolidation(req, provIn, cliIn).value, CoerceColumn(Normalize(cliIn), Clients.DateColumn());
      |DatedRows(c, Clients.DateColumn())|
        == |out.archiveClients.rows| + |out.clients.rows| + |Later(c, Clients.DateColumn(), req.end)|
    ensures var c := CoerceColumn(Normalize(cliIn), Clients.DateColumn());
      DatedRows(c, Clients.DateColumn()) == c.rows
  {
    SuccessRowsDated(req, provIn, cliIn);
    ClientParts(req, provIn, cliIn);
    ClientArchive(req, provIn, cliIn);
    WindowPartition(CoerceColumn(Normalize(cliIn), Clients.DateColumn()), Clients.DateColumn(), req.start, req.end);
  }

  /**
   * When every record behind a run has a text name, the ledger has a column
   * for exactly the summary's headings, and its `TOTAL FLUJO` cell under
   * the heading of a day is that day's `Clientes` cell less its
   * `Proveedores` cell, NaN counting as 0.
   */
  lemma LedgerMatchesSummary(req: Request, provIn: Table, cliIn: Table, j: nat)
    requires Rectangular(provIn) && Rectangular(cliIn)
    requires Consolidation(req, provIn, cliIn).Success?
    requires Agreement.AllNamed(Consolidation(req, provIn, cliIn).value.supplierEntries)
    requires Agreement.AllNamed(Consolidation(req, provIn, cliIn).value.clientEntries)
    requires j < |Consolidation(req, provIn, cliIn).value.summary.columns|
    ensures var out := Consolidation(req, provIn, cliIn).value;
      forall h :: h in out.ledger.grid.headings <==> h in Summary.Headings(out.summary)
    ensures var out := Consolidation(req, provIn, cliIn).value;
      IndexOf(out.ledger.grid.headings, Summary.Headings(out.summary)[j]).Some?
    ensures var out := Consolidation(req, provIn, cliIn).value;
      var i := IndexOf(out.ledger.grid.headings, Summary.Headings(out.summary)[j]).value;
      out.ledger.total[i] == Agreement.OrZero(out.summary.clients[j]) - Agreement.OrZero(out.summary.suppliers[j])
  {
    var out := Consolidation(req, provIn, cliIn).value;
    SupplierParts(req, provIn, cliIn);
    ClientParts(req, provIn, cliIn);
    SuccessStages(req, provIn, cliIn);
    var pw, cw := Windowed(Suppliers, req, Normalize(provIn)), Windowed(Clients, req, Normalize(cliIn));
    assert Agreement.AllRepresentable(out.supplierEntries) by {
      forall k | 0 <= k < |out.supplierEntries| ensures Valid(out.supplierEntries[k].date) && InTimestampRange(out.supplierEntries[k].date) {
        assert out.supplierEntries[k].date == Field(pw.columns, pw.rows[k], Suppliers.DateColumn()).d;
      }
    }
    assert Agreement.AllRepresentable(out.clientEntries) by {
      forall k | 0 <= k < |out.clientEntries| ensures Valid(out.clientEntries[k].date) && InTimestampRange(out.clientEntries[k].date) {
        assert out.clientEntries[k].date == Field(cw.columns, cw.rows[k], Clients.DateColumn()).d;
      }
    }
    Agreement.WrittenColumns(out.supplierEntries, out.clientEntries);
    Agreement.TotalIsSummaryDifference(out.supplierEntries, out.clientEntries, j);
  }
}
