/**
 * The two reports of one run agree. When every record has a text name, the
 * ledger has a column for exactly the days of the summary matrix, headed
 * the same way (in the corrected report also in the same order), and its
 * `TOTAL FLUJO` cell under a day's heading is the `Clientes` cell less the
 * `Proveedores` cell of that day, a NaN cell counting as 0.
 */
module Agreement {
  import opened Wrappers
  import opened Dates
  import opened Records
  import opened Sorting
  import opened Sequences
  import Summary
  import Ledger

  /** Every record has a text name, so none is dropped or raises in the ledger. */
  predicate AllNamed(es: seq<Entry>) {
    forall k :: 0 <= k < |es| ==> es[k].name.Text?
  }

  /** Every record is on a day pandas can hold. */
  predicate AllRepresentable(es: seq<Entry>) {
    forall k :: 0 <= k < |es| ==> Valid(es[k].date) && InTimestampRange(es[k].date)
  }

  /** A summary cell as a number, NaN read as 0. */
  function OrZero(c: Option<int>): int {
    match c
    case Some(v) => v
    case None => 0
  }

  /** With every name text, a role's lines are on the days of its records. */
  lemma RoleDays(src: Source, es: seq<Entry>)
    requires AllNamed(es)
    ensures Ledger.Lines(src, es).Success?
    ensures forall d :: d in Ledger.DaysOf(Ledger.Lines(src, es).value) <==> d in Summary.Days(es)
  {
    Ledger.LinesAllNamed(src, es);
    var ls := Ledger.Lines(src, es).value;
    forall d ensures d in Ledger.DaysOf(ls) <==> d in Summary.Days(es) {
      if d in Ledger.DaysOf(ls) {
        var k :| 0 <= k < |ls| && Ledger.DaysOf(ls)[k] == d;
        assert Summary.DatePairs(es)[k].0 == d;
      }
      if d in Summary.Days(es) {
        var k :| 0 <= k < |es| && Summary.DatePairs(es)[k].0 == d;
        assert Ledger.DaysOf(ls)[k] == d;
      }
    }
  }

  lemma DaysOfAppend(a: seq<Ledger.Line>, b: seq<Ledger.Line>)
    ensures forall d :: d in Ledger.DaysOf(a + b) <==> d in Ledger.DaysOf(a) || d in Ledger.DaysOf(b)
  {
    forall d ensures d in Ledger.DaysOf(a + b) <==> d in Ledger.DaysOf(a) || d in Ledger.DaysOf(b) {
      if d in Ledger.DaysOf(a + b) {
        var k :| 0 <= k < |a + b| && Ledger.DaysOf(a + b)[k] == d;
        if k < |a| {
          assert (a + b)[k] == a[k];
          assert Ledger.DaysOf(a)[k] == d;
        } else {
          assert (a + b)[k] == b[k - |a|];
          assert Ledger.DaysOf(b)[k - |a|] == d;
        }
      }
      if d in Ledger.DaysOf(a) {
        var k :| 0 <= k < |a| && Ledger.DaysOf(a)[k] == d;
        assert (a + b)[k] == a[k];
        assert Ledger.DaysOf(a + b)[k] == d;
      }
      if d in Ledger.DaysOf(b) {
        var k :| 0 <= k < |b| && Ledger.DaysOf(b)[k] == d;
        assert (a + b)[|a| + k] == b[k];
        assert Ledger.DaysOf(a + b)[|a| + k] == d;
      }
    }
  }

  /** With every name text, the ledger's lines are on the records' days. */
  lemma BuildDays(prov: seq<Entry>, cli: seq<Entry>)
    requires AllNamed(prov) && AllNamed(cli)
    ensures Ledger.Build(prov, cli).Success?
    ensures forall d :: d in Ledger.DaysOf(Ledger.BuildLines(prov, cli)) <==> d in Summary.Days(prov) || d in Summary.Days(cli)
  {
    RoleDays(Suppliers, prov);
    RoleDays(Clients, cli);
    DaysOfAppend(Ledger.Lines(Suppliers, prov).value, Ledger.Lines(Clients, cli).value);
  }

  /**
   * With every name text, the corrected ledger has the summary's columns, in
   * the same order and written the same way.
   */
  lemma SameColumns(prov: seq<Entry>, cli: seq<Entry>)
    requires AllNamed(prov) && AllNamed(cli)
    ensures Ledger.BuildInCalendarOrder(prov, cli).Success?
    ensures Ledger.ColumnDays(Ledger.BuildLines(prov, cli)) == Summary.Consolidate(prov, cli).columns
    ensures Ledger.BuildInCalendarOrder(prov, cli).value.grid.headings == Summary.Headings(Summary.Consolidate(prov, cli))
  {
    BuildDays(prov, cli);
    BeforeIsStrictOrder();
    var lines := Ledger.BuildLines(prov, cli);
    StrictlySortedSameElements(Before, Ledger.ColumnDays(lines), Summary.Consolidate(prov, cli).columns);
  }

  /**
   * With every name text, the ledger as the script builds it has a column
   * for exactly the summary's headings, though in string order.
   */
  lemma WrittenColumns(prov: seq<Entry>, cli: seq<Entry>)
    requires AllNamed(prov) && AllNamed(cli)
    ensures Ledger.Build(prov, cli).Success?
    ensures forall h :: h in Ledger.Build(prov, cli).value.grid.headings <==> h in Summary.Headings(Summary.Consolidate(prov, cli))
  {
    SameColumns(prov, cli);
    Ledger.HeadingsSameAsWritten(Ledger.BuildLines(prov, cli));
  }

  /** A role's named day total on the heading of a day is the signed day sum of the summary. */
  lemma {:induction false} NamedDayTotalIsDaySum(src: Source, es: seq<Entry>, d: Date)
    requires AllNamed(es) && AllRepresentable(es)
    requires Valid(d) && InTimestampRange(d)
    ensures Ledger.NamedDayTotal(src, es, Format(d)) == Ledger.Signed(src, SumKey(Summary.DatePairs(es), d))
  {
    if es != [] {
      assert AllNamed(es[1..]) && AllRepresentable(es[1..]) by {
        forall k | 0 <= k < |es[1..]| ensures es[1..][k] == es[k + 1] {
        }
      }
      assert Summary.DatePairs(es)[1..] == Summary.DatePairs(es[1..]);
      NamedDayTotalIsDaySum(src, es[1..], d);
      if Format(es[0].date) == Format(d) {
        FormatInjective(es[0].date, d);
      }
    }
  }

  /** A summary column is the day of some record, so pandas can hold it. */
  lemma ColumnRepresentable(prov: seq<Entry>, cli: seq<Entry>, j: nat)
    requires AllRepresentable(prov) && AllRepresentable(cli)
    requires j < |Summary.Consolidate(prov, cli).columns|
    ensures Valid(Summary.Consolidate(prov, cli).columns[j]) && InTimestampRange(Summary.Consolidate(prov, cli).columns[j])
  {
    var d := Summary.Consolidate(prov, cli).columns[j];
    if d in Summary.Days(prov) {
      var k :| 0 <= k < |prov| && Summary.DatePairs(prov)[k].0 == d;
    } else {
      var k :| 0 <= k < |cli| && Summary.DatePairs(cli)[k].0 == d;
    }
  }

  /**
   * The net flow of the named records on the heading of summary column
   * `j` is that column's `Clientes` cell less its `Proveedores` cell, NaN
   * counting as 0.
   */
  lemma DayDifference(prov: seq<Entry>, cli: seq<Entry>, j: nat)
    requires AllNamed(prov) && AllNamed(cli)
    requires AllRepresentable(prov) && AllRepresentable(cli)
    requires j < |Summary.Consolidate(prov, cli).columns|
    ensures var s := Summary.Consolidate(prov, cli); var h := Summary.Headings(s)[j];
      Ledger.NamedDayTotal(Clients, cli, h) + Ledger.NamedDayTotal(Suppliers, prov, h)
        == OrZero(s.clients[j]) - OrZero(s.suppliers[j])
  {
    var d := Summary.Consolidate(prov, cli).columns[j];
    ColumnRepresentable(prov, cli, j);
    NamedDayTotalIsDaySum(Suppliers, prov, d);
    NamedDayTotalIsDaySum(Clients, cli, d);
    if d !in Summary.Days(prov) {
      SumKeyAbsent(Summary.DatePairs(prov), d);
    }
    if d !in Summary.Days(cli) {
      SumKeyAbsent(Summary.DatePairs(cli), d);
    }
  }

  /**
   * With every name text and every day representable, the ledger as the
   * script builds it has a column headed like summary column `j`, and its
   * `TOTAL FLUJO` cell there is the summary's `Clientes` cell less its
   * `Proveedores` cell in column `j`, NaN counting as 0.
   */
  lemma TotalIsSummaryDifference(prov: seq<Entry>, cli: seq<Entry>, j: nat)
    requires AllNamed(prov) && AllNamed(cli)
    requires AllRepresentable(prov) && AllRepresentable(cli)
    requires j < |Summary.Consolidate(prov, cli).columns|
    ensures Ledger.Build(prov, cli).Success?
    ensures var rep, s := Ledger.Build(prov, cli).value, Summary.Consolidate(prov, cli);
      IndexOf(rep.grid.headings, Summary.Headings(s)[j]).Some?
    ensures var rep, s := Ledger.Build(prov, cli).value, Summary.Consolidate(prov, cli);
      var i := IndexOf(rep.grid.headings, Summary.Headings(s)[j]).value;
      rep.total[i] == OrZero(s.clients[j]) - OrZero(s.suppliers[j])
  {
    WrittenColumns(prov, cli);
    var rep, s := Ledger.Build(prov, cli).value, Summary.Consolidate(prov, cli);
    var h := Summary.Headings(s)[j];
    assert h in rep.grid.headings;
    var i := IndexOf(rep.grid.headings, h).value;
    Ledger.TotalIsNetFlow(prov, cli, i);
    DayDifference(prov, cli, j);
  }

  /**
   * In the corrected report the columns line up with the summary's one for
   * one: its `TOTAL FLUJO` cell of column `j` is the summary's `Clientes`
   * cell less its `Proveedores` cell in column `j`.
   */
  lemma CorrectedTotalIsSummaryDifference(prov: seq<Entry>, cli: seq<Entry>, j: nat)
    requires AllNamed(prov) && AllNamed(cli)
    requires AllRepresentable(prov) && AllRepresentable(cli)
    requires j < |Summary.Consolidate(prov, cli).columns|
    ensures Ledger.BuildInCalendarOrder(prov, cli).Success?
    ensures Ledger.BuildInCalendarOrder(prov, cli).value.grid.headings == Summary.Headings(Summary.Consolidate(prov, cli))
    ensures Ledger.BuildInCalendarOrder(prov, cli).value.total[j]
         == OrZero(Summary.Consolidate(prov, cli).clients[j]) - OrZero(Summary.Consolidate(prov, cli).suppliers[j])
  {
    SameColumns(prov, cli);
    var lines := Ledger.BuildLines(prov, cli);
    Ledger.AssembledNetFlow(prov, cli, Ledger.Headings(lines), j);
    DayDifference(prov, cli, j);
  }
}
