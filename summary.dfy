/**
 * Pivot Builder, summary matrix: per role, `monto_local` summed by day into
 * one row (`Proveedores`, `Clientes`), the two rows concatenated and the
 * columns put in calendar order, the headings then written `DD-MM-YYYY`.
 * Concatenation aligns the two rows on the union of their days and leaves
 * NaN where a day belongs to the other role only; the `fill_value=0` of
 * each single-row pivot never sees those cells.
 */
module Summary {
  import opened Wrappers
  import opened Dates
  import opened Records
  import opened Sorting
  import opened Sequences

  /** The `(day, monto_local)` pairs `groupby` sums. */
  function DatePairs(es: seq<Entry>): (r: seq<(Date, int)>)
    ensures |r| == |es|
    ensures forall k :: 0 <= k < |es| ==> r[k] == (es[k].date, es[k].amount)
  {
    seq(|es|, k requires 0 <= k < |es| => (es[k].date, es[k].amount))
  }

  function Days(es: seq<Entry>): seq<Date> {
    Keys(DatePairs(es))
  }

  /** The total `monto_local` of a role's records. */
  function TotalAmount(es: seq<Entry>): int {
    if es == [] then 0 else es[0].amount + TotalAmount(es[1..])
  }

  lemma {:induction false} TotalOfPairs(es: seq<Entry>)
    ensures Total(DatePairs(es)) == TotalAmount(es)
  {
    if es != [] {
      assert DatePairs(es)[1..] == DatePairs(es[1..]);
      TotalOfPairs(es[1..]);
    }
  }

  /** `sorted(df_cassa.columns)`: the distinct days of both roles, earliest first. */
  function Columns(prov: seq<Entry>, cli: seq<Entry>): (r: seq<Date>)
    ensures StrictlySorted(Before, r)
    ensures forall d :: d in r <==> d in Days(prov) || d in Days(cli)
  {
    BeforeIsStrictOrder();
    SortUnique(Before, Days(prov) + Days(cli))
  }

  /** One role's row after the concatenation: its day sums, NaN under the other role's days. */
  function RowCells(es: seq<Entry>, cols: seq<Date>): (r: seq<Option<int>>)
    ensures |r| == |cols|
    ensures forall j :: 0 <= j < |cols| ==> (r[j].Some? <==> cols[j] in Days(es))
    ensures forall j :: 0 <= j < |cols| && r[j].Some? ==> r[j].value == SumKey(DatePairs(es), cols[j])
  {
    seq(|cols|, j requires 0 <= j < |cols| =>
      if cols[j] in Days(es) then Some(SumKey(DatePairs(es), cols[j])) else None)
  }

  datatype Matrix = Matrix(columns: seq<Date>, suppliers: seq<Option<int>>, clients: seq<Option<int>>)

  /** `df_cassa` before its headings are formatted. */
  function Consolidate(prov: seq<Entry>, cli: seq<Entry>): (m: Matrix)
    ensures |m.suppliers| == |m.columns| && |m.clients| == |m.columns|
  {
    var cols := Columns(prov, cli);
    Matrix(cols, RowCells(prov, cols), RowCells(cli, cols))
  }

  /** The column headings: `c.strftime("%d-%m-%Y")` for every day. */
  function Headings(m: Matrix): (r: seq<string>)
    ensures |r| == |m.columns|
    ensures forall j :: 0 <= j < |r| ==> r[j] == Format(m.columns[j])
  {
    seq(|m.columns|, j requires 0 <= j < |m.columns| => Format(m.columns[j]))
  }

  /** A row's sum, NaN skipped as `DataFrame.sum` skips it. */
  function RowSum(cells: seq<Option<int>>): int {
    if cells == [] then 0
    else (match cells[0] case Some(v) => v case None => 0) + RowSum(cells[1..])
  }

  /** NaN cells add nothing, so a row sums to its day sums over all the columns. */
  lemma {:induction false} RowSumIsSumOver(es: seq<Entry>, cols: seq<Date>)
    ensures RowSum(RowCells(es, cols)) == SumOver(DatePairs(es), cols)
  {
    if cols != [] {
      assert RowCells(es, cols)[1..] == RowCells(es, cols[1..]);
      if cols[0] !in Days(es) {
        SumKeyAbsent(DatePairs(es), cols[0]);
      }
      RowSumIsSumOver(es, cols[1..]);
    }
  }

  /** Each summary row adds up to the total `monto_local` of its role. */
  lemma RowSumIsTotal(prov: seq<Entry>, cli: seq<Entry>)
    ensures RowSum(Consolidate(prov, cli).suppliers) == TotalAmount(prov)
    ensures RowSum(Consolidate(prov, cli).clients) == TotalAmount(cli)
  {
    var cols := Columns(prov, cli);
    BeforeIsStrictOrder();
    StrictlySortedIsDistinct(Before, cols);
    RowSumIsSumOver(prov, cols);
    RowSumIsSumOver(cli, cols);
    Regroup(DatePairs(prov), cols);
    Regroup(DatePairs(cli), cols);
    TotalOfPairs(prov);
    TotalOfPairs(cli);
  }

  /** The records of a role that fall on day `d`. */
  function OnDay(es: seq<Entry>, d: Date): (r: seq<Entry>) {
    if es == [] then []
    else if es[0].date == d then [es[0]] + OnDay(es[1..], d)
    else OnDay(es[1..], d)
  }

  /** A day sum is the total of exactly the records dated that day. */
  lemma {:induction false} DaySumIsTotalOfDay(es: seq<Entry>, d: Date)
    ensures SumKey(DatePairs(es), d) == TotalAmount(OnDay(es, d))
  {
    if es != [] {
      assert DatePairs(es)[1..] == DatePairs(es[1..]);
      DaySumIsTotalOfDay(es[1..], d);
    }
  }

  /**
   * The `Proveedores` cell of day `d` is the total of the supplier records
   * of that day, and is NaN for a day only clients have; likewise for
   * `Clientes`.
   */
  lemma CellIsDayTotal(prov: seq<Entry>, cli: seq<Entry>, j: nat)
    requires j < |Consolidate(prov, cli).columns|
    ensures Consolidate(prov, cli).suppliers[j] ==
      if Consolidate(prov, cli).columns[j] in Days(prov)
      then Some(TotalAmount(OnDay(prov, Consolidate(prov, cli).columns[j]))) else None
    ensures Consolidate(prov, cli).clients[j] ==
      if Consolidate(prov, cli).columns[j] in Days(cli)
      then Some(TotalAmount(OnDay(cli, Consolidate(prov, cli).columns[j]))) else None
  {
    var d := Consolidate(prov, cli).columns[j];
    DaySumIsTotalOfDay(prov, d);
    DaySumIsTotalOfDay(cli, d);
  }

  /** Days pandas can hold never share a heading. */
  lemma HeadingsDistinct(prov: seq<Entry>, cli: seq<Entry>)
    requires forall k :: 0 <= k < |prov| ==> Valid(prov[k].date) && InTimestampRange(prov[k].date)
    requires forall k :: 0 <= k < |cli| ==> Valid(cli[k].date) && InTimestampRange(cli[k].date)
    ensures Distinct(Headings(Consolidate(prov, cli)))
  {
    var m := Consolidate(prov, cli);
    var h := Headings(m);
    BeforeIsStrictOrder();
    StrictlySortedIsDistinct(Before, m.columns);
    forall i, j | 0 <= i < j < |h| ensures h[i] != h[j] {
      var a, b := m.columns[i], m.columns[j];
      assert a in Days(prov) || a in Days(cli);
      assert b in Days(prov) || b in Days(cli);
      FormatRoundTrip(a);
      FormatRoundTrip(b);
    }
  }
}
