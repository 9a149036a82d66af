/**
 * The data the pipeline works on: spreadsheet cells, tables with a header
 * row, the two source roles with their canonical column names, the rows
 * that pass the date window, the converted records and the run's errors.
 */
module Records {
  import opened Wrappers
  import opened Dates

  /** A spreadsheet cell as pandas holds it: text, a number, a day, or NaN/NaT/None. */
  datatype Value = Text(s: string) | Number(x: real) | DateVal(d: Date) | Missing

  /** A sheet: header row and positional data rows. */
  datatype Table = Table(columns: seq<string>, rows: seq<seq<Value>>)

  /** Which of the two uploads a table is. */
  datatype Source = Suppliers | Clients {

    function NameColumn(): string {
      if Suppliers? then "nombre_proveedor" else "cliente"
    }

    function AmountColumn(): string {
      if Suppliers? then "valor" else "total_a_cobrar"
    }

    function DateColumn(): string {
      if Suppliers? then "vencimiento_real" else "fecha_de_cobro"
    }

    /** The columns that must be present after normalisation. */
    function Required(): set<string> {
      {NameColumn(), AmountColumn(), DateColumn(), CurrencyColumn}
    }

    /** The prefix of this role's row labels in the ledger report. */
    function LabelPrefix(): string {
      if Suppliers? then "PROV - " else "CLI - "
    }

    /** The row name of this role in the summary matrix. */
    function SummaryRowName(): string {
      if Suppliers? then "Proveedores" else "Clientes"
    }
  }

  const CurrencyColumn := "moneda"

  /** Where `df[name]` reads: the first column with that header. */
  function IndexOf(columns: seq<string>, name: string): (r: Option<nat>)
    ensures r.Some? ==> r.value < |columns| && columns[r.value] == name
    ensures r.Some? ==> forall j :: 0 <= j < r.value ==> columns[j] != name
    ensures r.None? <==> name !in columns
  {
    if columns == [] then None
    else if columns[0] == name then Some(0)
    else match IndexOf(columns[1..], name)
      case Some(i) => Some(i + 1)
      case None => None
  }

  /** The cell of a row under column `i`; a short row reads as NaN. */
  function Cell(row: seq<Value>, i: nat): Value {
    if i < |row| then row[i] else Missing
  }

  /** The cell of `row` under the column called `name`. */
  function Field(columns: seq<string>, row: seq<Value>, name: string): Value {
    match IndexOf(columns, name)
    case Some(i) => Cell(row, i)
    case None => Missing
  }

  /** Every row has one cell per column, as in a DataFrame. */
  predicate Rectangular(t: Table) {
    forall k :: 0 <= k < |t.rows| ==> |t.rows[k]| == |t.columns|
  }

  /** `df[name]`: the column called `name`, one value per row. */
  function ColumnValues(t: Table, name: string): (r: seq<Value>)
    ensures |r| == |t.rows|
    ensures forall k :: 0 <= k < |r| ==> r[k] == Field(t.columns, t.rows[k], name)
  {
    seq(|t.rows|, k requires 0 <= k < |t.rows| => Field(t.columns, t.rows[k], name))
  }

  /** The row with cell `i` replaced; a row too short for `i` is left as it is. */
  function SetCell(row: seq<Value>, i: nat, v: Value): (r: seq<Value>)
    ensures |r| == |row|
  {
    if i < |row| then row[i := v] else row
  }

  /**
   * `df[name] = vals`: overwrites the column called `name`, or appends a
   * new column of that name when there is none.
   */
  function Assign(t: Table, name: string, vals: seq<Value>): (r: Table)
    requires Rectangular(t)
    requires |vals| == |t.rows|
    ensures Rectangular(r)
    ensures |r.rows| == |t.rows|
    ensures r.columns == if name in t.columns then t.columns else t.columns + [name]
    ensures ColumnValues(r, name) == vals
    ensures forall c, k :: c != name && 0 <= k < |t.rows| ==>
      Field(r.columns, r.rows[k], c) == Field(t.columns, t.rows[k], c)
  {
    match IndexOf(t.columns, name)
    case Some(i) =>
      Table(t.columns, seq(|t.rows|, k requires 0 <= k < |t.rows| => SetCell(t.rows[k], i, vals[k])))
    case None =>
      var r := Table(t.columns + [name], seq(|t.rows|, k requires 0 <= k < |t.rows| => t.rows[k] + [vals[k]]));
      IndexOfAppend(t.columns, name);
      r
  }

  /** Appending a header does not move the headers already there. */
  lemma {:induction false} IndexOfAppend(columns: seq<string>, name: string)
    requires name !in columns
    ensures IndexOf(columns + [name], name) == Some(|columns|)
    ensures forall c :: c != name ==> IndexOf(columns + [name], c) == IndexOf(columns, c)
  {
    if columns != [] {
      assert (columns + [name])[1..] == columns[1..] + [name];
      IndexOfAppend(columns[1..], name);
    } else {
      assert columns + [name] == [name];
    }
  }

  /** A filtered, converted record: its entity name cell, its day and `monto_local`. */
  datatype Entry = Entry(name: Value, date: Date, amount: int)

  datatype Error =
    | NoDateColumn(source: Source)
    | MissingColumns(source: Source, required: set<string>)
    | NoDateRange(source: Source)
    | AmountColumnsNotFound
    | ObjectAmountColumn(source: Source, column: string)
    | AmountNotNumeric(source: Source, column: string)
    | EmptyWindow(source: Source)
    | RawDatesNotComparable(source: Source)
    | NameNotText(source: Source)
}
