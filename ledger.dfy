/**
 * Ledger Formatter: the horizontal cash-flow report. Each record becomes a
 * line labelled `PROV - <name>` (amount negated) or `CLI - <name>`; the
 * lines are pivoted by label and `DD-MM-YYYY` heading with `sum` and
 * `fill_value=0`; the rows are reordered as the sorted supplier labels
 * followed by the sorted client labels; and a `TOTAL FLUJO` row of column
 * sums closes the report.
 */
module Ledger {
  import opened Wrappers
  import opened Dates
  import opened Records
  import opened Text
  import opened Sorting
  import opened Sequences

  /** One row of `union_tab`: `Entidad`, the day behind `Fecha`, and `Importo`. */
  datatype Line = Line(entity: string, date: Date, amount: int)

  /** `Importo`: supplier amounts are payments out, so they are negated. */
  function Signed(src: Source, amount: int): int {
    if src.Suppliers? then -amount else amount
  }

  lemma PrefixStarts(prefix: string, s: string)
    ensures StartsWith(prefix + s, prefix)
  {
    assert (prefix + s)[..|prefix|] == prefix;
  }

  /**
   * `prov_tab` / `cli_tab` from a name column of dtype `object`. A NaN name
   * gives a NaN label, and `pivot_table` drops that row; any other name
   * that is not text makes `"PROV - " + ...` raise.
   */
  function Lines(src: Source, es: seq<Entry>): (r: Result<seq<Line>, Error>)
    ensures r.Success? <==> forall k :: 0 <= k < |es| ==> es[k].name.Text? || es[k].name.Missing?
    ensures r.Failure? ==> r.error == NameNotText(src)
    ensures r.Success? ==> forall k :: 0 <= k < |r.value| ==> StartsWith(r.value[k].entity, src.LabelPrefix())
  {
    if es == [] then Success([])
    else
      var tail :- Lines(src, es[1..]);
      assert forall k :: 1 <= k < |es| ==> es[k] == es[1..][k - 1];
      match es[0].name
      case Text(s) =>
        PrefixStarts(src.LabelPrefix(), s);
        Success([Line(src.LabelPrefix() + s, es[0].date, Signed(src, es[0].amount))] + tail)
      case Missing => Success(tail)
      case _ => Failure(NameNotText(src))
  }

  /** When every name is text, each record gives one line, in order, on its own day. */
  lemma {:induction false} LinesAllNamed(src: Source, es: seq<Entry>)
    requires forall k :: 0 <= k < |es| ==> es[k].name.Text?
    ensures Lines(src, es).Success?
    ensures |Lines(src, es).value| == |es|
    ensures forall k :: 0 <= k < |es| ==> Lines(src, es).value[k] == Line(src.LabelPrefix() + es[k].name.s, es[k].date, Signed(src, es[k].amount))
  {
    if es != [] {
      assert forall k :: 0 <= k < |es[1..]| ==> es[1..][k] == es[k + 1];
      LinesAllNamed(src, es[1..]);
      var tail := Lines(src, es[1..]).value;
      assert Lines(src, es).value == [Line(src.LabelPrefix() + es[0].name.s, es[0].date, Signed(src, es[0].amount))] + tail;
    }
  }

  /**
   * The reference for a ledger cell, read off the records themselves: the
   * signed total of the role's records whose name gives `entity` and whose
   * day is written `f`.
   */
  function EntityDaySum(src: Source, es: seq<Entry>, entity: string, f: string): int {
    if es == [] then 0
    else
      (match es[0].name
       case Text(s) => if src.LabelPrefix() + s == entity && Format(es[0].date) == f then Signed(src, es[0].amount) else 0
       case _ => 0)
      + EntityDaySum(src, es[1..], entity, f)
  }

  /** The signed total of all the role's named records whose day is written `f`. */
  function NamedDayTotal(src: Source, es: seq<Entry>, f: string): int {
    if es == [] then 0
    else
      (if es[0].name.Text? && Format(es[0].date) == f then Signed(src, es[0].amount) else 0)
      + NamedDayTotal(src, es[1..], f)
  }

  /** The `(Entidad, Importo)` pairs of the lines whose `Fecha` is `f`. */
  function OnHeading(lines: seq<Line>, f: string): (r: seq<(string, int)>)
    ensures forall i :: 0 <= i < |r| ==> exists k :: 0 <= k < |lines| && r[i].0 == lines[k].entity
  {
    if lines == [] then []
    else
      var tail := OnHeading(lines[1..], f);
      assert forall i :: 0 <= i < |tail| ==> exists k :: 1 <= k < |lines| && tail[i].0 == lines[k].entity by {
        forall i | 0 <= i < |tail| ensures exists k :: 1 <= k < |lines| && tail[i].0 == lines[k].entity {
          var k :| 0 <= k < |lines[1..]| && tail[i].0 == lines[1..][k].entity;
          assert lines[1..][k] == lines[k + 1];
        }
      }
      if Format(lines[0].date) == f then [(lines[0].entity, lines[0].amount)] + tail else tail
  }

  lemma {:induction false} OnHeadingAppend(a: seq<Line>, b: seq<Line>, f: string)
    ensures OnHeading(a + b, f) == OnHeading(a, f) + OnHeading(b, f)
  {
    if a == [] {
      assert a + b == b;
    } else {
      assert (a + b)[0] == a[0] && (a + b)[1..] == a[1..] + b;
      OnHeadingAppend(a[1..], b, f);
    }
  }

  /** The pivot cell `(entity, f)`: sum over the matching lines, 0 when there are none. */
  function CellAt(lines: seq<Line>, entity: string, f: string): int {
    SumKey(OnHeading(lines, f), entity)
  }

  /** One role's lines give, in every cell, that role's signed record total. */
  lemma {:induction false} LinesCell(src: Source, es: seq<Entry>, entity: string, f: string)
    requires Lines(src, es).Success?
    ensures CellAt(Lines(src, es).value, entity, f) == EntityDaySum(src, es, entity, f)
  {
    if es != [] {
      LinesCell(src, es[1..], entity, f);
    }
  }

  /** One role's lines on heading `f` add up to that role's signed day total. */
  lemma {:induction false} LinesDayTotal(src: Source, es: seq<Entry>, f: string)
    requires Lines(src, es).Success?
    ensures Total(OnHeading(Lines(src, es).value, f)) == NamedDayTotal(src, es, f)
  {
    if es != [] {
      LinesDayTotal(src, es[1..], f);
    }
  }

  /** The labels of the lines, in order. */
  function LabelsOf(lines: seq<Line>): (r: seq<string>)
    ensures |r| == |lines|
    ensures forall k :: 0 <= k < |lines| ==> r[k] == lines[k].entity
  {
    seq(|lines|, k requires 0 <= k < |lines| => lines[k].entity)
  }

  /** The pivot index: the distinct labels in `str` order. */
  function Index(lines: seq<Line>): (r: seq<string>)
    ensures StrictlySorted(StrLess, r)
    ensures forall l :: l in r <==> l in LabelsOf(lines)
  {
    StrLessIsStrictOrder();
    SortUnique(StrLess, LabelsOf(lines))
  }

  /** The `Fecha` string of every line. */
  function FechasOf(lines: seq<Line>): (r: seq<string>)
    ensures |r| == |lines|
    ensures forall k :: 0 <= k < |lines| ==> r[k] == Format(lines[k].date)
  {
    seq(|lines|, k requires 0 <= k < |lines| => Format(lines[k].date))
  }

  /**
   * The pivot columns as written: `Fecha` holds strings, so `pivot_table`
   * sorts them as strings, which for `DD-MM-YYYY` is by day of the month
   * first.
   */
  function HeadingsAsWritten(lines: seq<Line>): (r: seq<string>)
    ensures StrictlySorted(StrLess, r)
    ensures forall h :: h in r <==> h in FechasOf(lines)
  {
    StrLessIsStrictOrder();
    SortUnique(StrLess, FechasOf(lines))
  }

  /** The day of every line. */
  function DaysOf(lines: seq<Line>): (r: seq<Date>)
    ensures |r| == |lines|
    ensures forall k :: 0 <= k < |lines| ==> r[k] == lines[k].date
  {
    seq(|lines|, k requires 0 <= k < |lines| => lines[k].date)
  }

  /** The days the corrected report has a column for, earliest first. */
  function ColumnDays(lines: seq<Line>): (r: seq<Date>)
    ensures StrictlySorted(Before, r)
    ensures forall d :: d in r <==> d in DaysOf(lines)
  {
    BeforeIsStrictOrder();
    SortUnique(Before, DaysOf(lines))
  }

  /**
   * The pivot columns in calendar order, as the summary matrix has them:
   * the days are sorted before they are written `DD-MM-YYYY`.
   */
  function Headings(lines: seq<Line>): (r: seq<string>)
    ensures |r| == |ColumnDays(lines)|
    ensures forall j :: 0 <= j < |r| ==> r[j] == Format(ColumnDays(lines)[j])
  {
    var days := ColumnDays(lines);
    seq(|days|, j requires 0 <= j < |days| => Format(days[j]))
  }

  /** The correction only reorders: both orders have the same headings. */
  lemma HeadingsSameAsWritten(lines: seq<Line>)
    ensures forall h :: h in Headings(lines) <==> h in HeadingsAsWritten(lines)
  {
    var hs := Headings(lines);
    var days := ColumnDays(lines);
    forall h | h in hs ensures h in FechasOf(lines) {
      var j :| 0 <= j < |hs| && hs[j] == h;
      assert days[j] in DaysOf(lines);
      var k :| 0 <= k < |lines| && DaysOf(lines)[k] == days[j];
      assert FechasOf(lines)[k] == h;
    }
    forall h | h in FechasOf(lines) ensures h in hs {
      var k :| 0 <= k < |lines| && FechasOf(lines)[k] == h;
      assert lines[k].date in DaysOf(lines);
      var j :| 0 <= j < |days| && days[j] == lines[k].date;
      assert hs[j] == h;
    }
  }

  /**
   * As strings, `DD-MM-YYYY` headings compare by the day of the month
   * first: of two days in the first nine of their months, the one with the
   * smaller day of the month comes first, whatever their months and years.
   */
  lemma WrittenOrderIsDayOfMonth(a: Date, b: Date)
    requires a.day < b.day < 10
    ensures StrLess(Format(a), Format(b)) && !StrLess(Format(b), Format(a))
  {
    var fa, fb := Format(a), Format(b);
    PaddedOneDigit(a.day);
    PaddedOneDigit(b.day);
    FormatStartsWithDay(a);
    FormatStartsWithDay(b);
    assert fa[0] == fa[..2][0] == '0' && fb[0] == fb[..2][0] == '0';
    assert fa[1] == fa[..2][1] == DigitChar(a.day) && fb[1] == fb[..2][1] == DigitChar(b.day);
    StrLessByFirst(fa[1..], fb[1..]);
  }

  /**
   * The column order as written is not the calendar: a line on 2 January
   * 2024 and one on 1 February 2024 give the heading of 1 February first;
   * the corrected headings put 2 January first.
   */
  lemma HeadingsAsWrittenOutOfOrder()
    ensures Before(Date(2024, 1, 2), Date(2024, 2, 1))
    ensures HeadingsAsWritten([Line("CLI - a", Date(2024, 1, 2), 1), Line("CLI - a", Date(2024, 2, 1), 1)])
         == [Format(Date(2024, 2, 1)), Format(Date(2024, 1, 2))]
    ensures Headings([Line("CLI - a", Date(2024, 1, 2), 1), Line("CLI - a", Date(2024, 2, 1), 1)])
         == [Format(Date(2024, 1, 2)), Format(Date(2024, 2, 1))]
  {
    var jan, feb := Date(2024, 1, 2), Date(2024, 2, 1);
    var lines := [Line("CLI - a", jan, 1), Line("CLI - a", feb, 1)];
    WrittenOrderIsDayOfMonth(feb, jan);
    StrLessIsStrictOrder();
    assert FechasOf(lines) == [Format(jan), Format(feb)];
    SortUniquePair(StrLess, Format(feb), Format(jan));
    BeforeIsStrictOrder();
    assert DaysOf(lines) == [jan, feb];
    SortUniquePair(Before, jan, feb);
  }

  /** The pivot: a row per index label, a column per heading. */
  datatype Grid = Grid(labels: seq<string>, headings: seq<string>, cells: seq<seq<int>>)

  /** `union_tab.pivot_table(index="Entidad", columns="Fecha", aggfunc="sum", fill_value=0)` */
  function Pivot(lines: seq<Line>, headings: seq<string>): (g: Grid)
    ensures g.labels == Index(lines) && g.headings == headings
    ensures |g.cells| == |g.labels|
    ensures forall i :: 0 <= i < |g.cells| ==> |g.cells[i]| == |headings|
    ensures forall i, j :: 0 <= i < |g.cells| && 0 <= j < |headings| ==> g.cells[i][j] == CellAt(lines, g.labels[i], headings[j])
  {
    var labels := Index(lines);
    Grid(labels, headings,
      seq(|labels|, i requires 0 <= i < |labels| =>
        seq(|headings|, j requires 0 <= j < |headings| => CellAt(lines, labels[i], headings[j]))))
  }

  predicate IsProv(entity: string) {
    StartsWith(entity, "PROV")
  }

  predicate IsCli(entity: string) {
    StartsWith(entity, "CLI")
  }

  /** `new_order`: the sorted `PROV` labels, then the sorted `CLI` labels. */
  function NewOrder(labels: seq<string>): (r: seq<string>)
    ensures forall l :: l in r ==> l in labels
  {
    StrLessIsStrictOrder();
    var prov := Sort(StrLess, Filter(IsProv, labels));
    var cli := Sort(StrLess, Filter(IsCli, labels));
    assert forall l :: l in prov ==> l in multiset(prov);
    assert forall l :: l in cli ==> l in multiset(cli);
    prov + cli
  }

  /** A label cannot be both a supplier's and a client's. */
  lemma ProvCliExclusive()
    ensures forall l :: !(IsProv(l) && IsCli(l))
  {
    forall l | IsProv(l) ensures !IsCli(l) {
      assert l[..4][0] == 'P';
    }
  }

  /**
   * When every label carries one of the two role prefixes, the reorder is a
   * permutation of the index: the supplier labels in `str` order, then the
   * client labels in `str` order, each label once if it was once in the index.
   */
  lemma NewOrderIsPermutation(labels: seq<string>)
    requires forall i :: 0 <= i < |labels| ==> HasRolePrefix(labels[i])
    ensures multiset(NewOrder(labels)) == multiset(labels)
    ensures var n := |Filter(IsProv, labels)|;
      n <= |NewOrder(labels)|
      && (forall i :: 0 <= i < n ==> IsProv(NewOrder(labels)[i]))
      && (forall i :: n <= i < |NewOrder(labels)| ==> IsCli(NewOrder(labels)[i]))
      && Sorted(StrLess, NewOrder(labels)[..n]) && Sorted(StrLess, NewOrder(labels)[n..])
    ensures Distinct(labels) ==> Distinct(NewOrder(labels))
  {
    StrLessIsStrictOrder();
    ProvCliExclusive();
    forall i | 0 <= i < |labels| ensures IsProv(labels[i]) || IsCli(labels[i]) {
      if StartsWith(labels[i], "PROV - ") {
        assert labels[i][..4] == labels[i][..7][..4];
      } else {
        assert labels[i][..3] == labels[i][..6][..3];
      }
    }
    FilterCover(IsProv, IsCli, labels);
    var prov := Sort(StrLess, Filter(IsProv, labels));
    var cli := Sort(StrLess, Filter(IsCli, labels));
    var r := NewOrder(labels);
    assert r == prov + cli;
    assert |prov| == |Filter(IsProv, labels)| by {
      assert |multiset(prov)| == |multiset(Filter(IsProv, labels))|;
    }
    assert r[..|prov|] == prov && r[|prov|..] == cli;
    forall i | 0 <= i < |prov| ensures IsProv(r[i]) {
      assert r[i] == prov[i] && prov[i] in multiset(prov);
    }
    forall i | |prov| <= i < |r| ensures IsCli(r[i]) {
      assert r[i] == cli[i - |prov|] && cli[i - |prov|] in multiset(cli);
    }
    if Distinct(labels) {
      DistinctIffSingleOccurrences(labels);
      DistinctIffSingleOccurrences(r);
    }
  }

  /** `pivot.loc[order]`: the pivot's rows, picked out by label. */
  function Loc(g: Grid, order: seq<string>): (r: Grid)
    requires |g.cells| == |g.labels|
    requires forall l :: l in order ==> l in g.labels
    ensures r.labels == order && r.headings == g.headings && |r.cells| == |order|
    ensures forall k :: 0 <= k < |order| ==> r.cells[k] == g.cells[IndexOf(g.labels, order[k]).value]
  {
    Grid(order, g.headings,
      seq(|order|, k requires 0 <= k < |order| => g.cells[IndexOf(g.labels, order[k]).value]))
  }

  /** Cell `j` of a row, 0 past its end. */
  function At(row: seq<int>, j: nat): int {
    if j < |row| then row[j] else 0
  }

  /** Column `j` summed down the rows: `pivot.sum(axis=0)[j]`. */
  function ColumnTotal(cells: seq<seq<int>>, j: nat): int {
    if cells == [] then 0 else At(cells[0], j) + ColumnTotal(cells[1..], j)
  }

  const TotalLabel := "TOTAL FLUJO"

  /** The finished report: the reordered pivot and its `TOTAL FLUJO` row. */
  datatype Report = Report(grid: Grid, total: seq<int>)

  /** Picking pivot rows by label keeps each cell the pivot cell of its label. */
  lemma LocOfPivot(lines: seq<Line>, headings: seq<string>, order: seq<string>)
    requires forall l :: l in order ==> l in Index(lines)
    ensures forall k, j :: 0 <= k < |order| && 0 <= j < |headings| ==>
      |Loc(Pivot(lines, headings), order).cells[k]| == |headings| &&
      Loc(Pivot(lines, headings), order).cells[k][j] == CellAt(lines, order[k], headings[j])
  {
    var g := Pivot(lines, headings);
    forall k | 0 <= k < |order|
      ensures |Loc(g, order).cells[k]| == |headings|
      ensures forall j :: 0 <= j < |headings| ==> Loc(g, order).cells[k][j] == CellAt(lines, order[k], headings[j])
    {
      var i := IndexOf(g.labels, order[k]).value;
      assert i < |g.labels| && g.labels[i] == order[k];
      assert Loc(g, order).cells[k] == g.cells[i];
    }
  }

  /**
   * The report from the union of the lines on the columns `headings`:
   * pivot, reorder, then the total row.
   */
  function Assemble(lines: seq<Line>, headings: seq<string>): (rep: Report)
    ensures rep.grid.labels == NewOrder(Index(lines))
    ensures rep.grid.headings == headings
    ensures |rep.grid.cells| == |rep.grid.labels| && |rep.total| == |rep.grid.headings|
    ensures forall k :: 0 <= k < |rep.grid.cells| ==> |rep.grid.cells[k]| == |rep.grid.headings|
    ensures forall k, j :: 0 <= k < |rep.grid.cells| && 0 <= j < |rep.grid.headings| ==>
      rep.grid.cells[k][j] == CellAt(lines, rep.grid.labels[k], rep.grid.headings[j])
    ensures forall j :: 0 <= j < |rep.total| ==> rep.total[j] == ColumnTotal(rep.grid.cells, j)
  {
    var order := NewOrder(Index(lines));
    LocOfPivot(lines, headings, order);
    var sorted := Loc(Pivot(lines, headings), order);
    Report(sorted, seq(|headings|, j requires 0 <= j < |headings| => ColumnTotal(sorted.cells, j)))
  }

  /**
   * The ledger report built from both roles' converted records, as the
   * script builds it: the columns are the `Fecha` strings in string order.
   */
  function Build(prov: seq<Entry>, cli: seq<Entry>): (r: Result<Report, Error>)
    ensures r.Success? <==> Lines(Suppliers, prov).Success? && Lines(Clients, cli).Success?
    ensures r.Failure? ==> r.error == if Lines(Suppliers, prov).Failure? then NameNotText(Suppliers) else NameNotText(Clients)
  {
    var provLines :- Lines(Suppliers, prov);
    var cliLines :- Lines(Clients, cli);
    var lines := provLines + cliLines;
    Success(Assemble(lines, HeadingsAsWritten(lines)))
  }

  /**
   * The report as the script reaches it: `"PROV - " + df["nombre_proveedor"]`
   * falls back to concatenating cell by cell, NaN kept, only on a name
   * column of dtype `object`; on a numeric or `datetime64` one (a column
   * left blank in every row, say) it raises. `objectNames` says, supplier
   * then client, whether the name column is `object`.
   */
  function BuildFromSheets(objectNames: (bool, bool), prov: seq<Entry>, cli: seq<Entry>): (r: Result<Report, Error>)
    ensures r.Success? <==> objectNames.0 && objectNames.1 && Build(prov, cli).Success?
    ensures r.Success? ==> r.value == Build(prov, cli).value
    ensures r.Failure? ==> r.error == if !objectNames.0 || Lines(Suppliers, prov).Failure? then NameNotText(Suppliers) else NameNotText(Clients)
  {
    if !objectNames.0 then Failure(NameNotText(Suppliers))
    else if Lines(Suppliers, prov).Success? && !objectNames.1 then Failure(NameNotText(Clients))
    else Build(prov, cli)
  }

  /**
   * The report with the corrected column order: the same pivot with its
   * columns in calendar order, as the summary matrix has them.
   */
  function BuildInCalendarOrder(prov: seq<Entry>, cli: seq<Entry>): (r: Result<Report, Error>)
    ensures r.Success? <==> Build(prov, cli).Success?
    ensures r.Success? ==> r.value.grid.labels == Build(prov, cli).value.grid.labels
    ensures r.Success? ==> forall h :: h in r.value.grid.headings <==> h in Build(prov, cli).value.grid.headings
  {
    var provLines :- Lines(Suppliers, prov);
    var cliLines :- Lines(Clients, cli);
    var lines := provLines + cliLines;
    HeadingsSameAsWritten(lines);
    Success(Assemble(lines, Headings(lines)))
  }

  /** The lines of a successful build. */
  function BuildLines(prov: seq<Entry>, cli: seq<Entry>): (r: seq<Line>)
    requires Build(prov, cli).Success?
    ensures Build(prov, cli).value == Assemble(r, HeadingsAsWritten(r))
    ensures BuildInCalendarOrder(prov, cli).value == Assemble(r, Headings(r))
  {
    Lines(Suppliers, prov).value + Lines(Clients, cli).value
  }

  /** A label with one of the two role prefixes. */
  predicate HasRolePrefix(entity: string) {
    StartsWith(entity, "PROV - ") || StartsWith(entity, "CLI - ")
  }

  /** Every line carries one of the two role prefixes. */
  predicate Prefixed(lines: seq<Line>) {
    forall k :: 0 <= k < |lines| ==> HasRolePrefix(lines[k].entity)
  }

  lemma LinesPrefixed(src: Source, es: seq<Entry>)
    requires Lines(src, es).Success?
    ensures Prefixed(Lines(src, es).value)
  {
    var ls := Lines(src, es).value;
    forall k | 0 <= k < |ls| ensures HasRolePrefix(ls[k].entity) {
      assert StartsWith(ls[k].entity, src.LabelPrefix());
    }
  }

  lemma PrefixedAppend(a: seq<Line>, b: seq<Line>)
    requires Prefixed(a) && Prefixed(b)
    ensures Prefixed(a + b)
  {
    forall k | 0 <= k < |a + b| ensures HasRolePrefix((a + b)[k].entity) {
      if k < |a| {
        assert (a + b)[k] == a[k];
      } else {
        assert (a + b)[k] == b[k - |a|];
      }
    }
  }

  lemma BuildLinesPrefixed(prov: seq<Entry>, cli: seq<Entry>)
    requires Build(prov, cli).Success?
    ensures Prefixed(BuildLines(prov, cli))
  {
    LinesPrefixed(Suppliers, prov);
    LinesPrefixed(Clients, cli);
    PrefixedAppend(Lines(Suppliers, prov).value, Lines(Clients, cli).value);
  }

  /** No label carries both role prefixes. */
  lemma RolePrefixesExclusive(l: string)
    ensures StartsWith(l, "PROV - ") ==> !StartsWith(l, "CLI - ")
  {
    if StartsWith(l, "PROV - ") {
      assert l[..6][0] == l[..7][0] == 'P';
    }
  }

  /** A prefixed label is never the total row's label. */
  lemma NotTotalLabel(l: string)
    requires HasRolePrefix(l)
    ensures l != TotalLabel
  {
    if StartsWith(l, "PROV - ") {
      assert l[..7][1] == 'R';
    } else {
      assert l[..6][0] == 'C';
    }
  }

  /** Every row label of the report starts with `PROV - ` or `CLI - `, and none is `TOTAL FLUJO`. */
  lemma LabelsPrefixed(lines: seq<Line>, headings: seq<string>)
    requires Prefixed(lines)
    ensures forall l :: l in Assemble(lines, headings).grid.labels ==> HasRolePrefix(l) && l != TotalLabel
  {
    forall l | l in Assemble(lines, headings).grid.labels
      ensures HasRolePrefix(l) && l != TotalLabel
    {
      assert l in Index(lines);
      var k :| 0 <= k < |lines| && LabelsOf(lines)[k] == l;
      NotTotalLabel(l);
    }
  }

  /** The rows of the report are the pivot index reordered: a permutation, each label once. */
  lemma RowsArePermutation(lines: seq<Line>, headings: seq<string>)
    requires Prefixed(lines)
    ensures multiset(Assemble(lines, headings).grid.labels) == multiset(Index(lines))
    ensures Distinct(Assemble(lines, headings).grid.labels)
  {
    var idx := Index(lines);
    forall i | 0 <= i < |idx| ensures HasRolePrefix(idx[i]) {
      assert idx[i] in LabelsOf(lines);
    }
    StrLessIsStrictOrder();
    StrictlySortedIsDistinct(StrLess, idx);
    NewOrderIsPermutation(idx);
  }

  /**
   * A report cell is the signed total of its entity's records on that day:
   * client amounts counted in, supplier amounts counted out. A pair with no
   * record is 0.
   */
  lemma CellIsSignedSum(prov: seq<Entry>, cli: seq<Entry>, entity: string, f: string)
    requires Build(prov, cli).Success?
    ensures CellAt(BuildLines(prov, cli), entity, f)
         == EntityDaySum(Clients, cli, entity, f) + EntityDaySum(Suppliers, prov, entity, f)
  {
    var a: seq<Line>, b: seq<Line> := Lines(Suppliers, prov).value, Lines(Clients, cli).value;
    OnHeadingAppend(a, b, f);
    SumKeyAppend(OnHeading(a, f), OnHeading(b, f), entity);
    LinesCell(Suppliers, prov, entity, f);
    LinesCell(Clients, cli, entity, f);
  }

  /** A record of the other role never contributes to a label. */
  lemma {:induction false} EntityDaySumOtherRole(src: Source, es: seq<Entry>, entity: string, f: string)
    requires !StartsWith(entity, src.LabelPrefix())
    ensures EntityDaySum(src, es, entity, f) == 0
  {
    if es != [] {
      if es[0].name.Text? {
        PrefixStarts(src.LabelPrefix(), es[0].name.s);
      }
      EntityDaySumOtherRole(src, es[1..], entity, f);
    }
  }

  /** With non-negative amounts a role's contribution has the role's sign. */
  lemma {:induction false} EntityDaySumSign(src: Source, es: seq<Entry>, entity: string, f: string)
    requires forall k :: 0 <= k < |es| ==> es[k].amount >= 0
    ensures src.Suppliers? ==> EntityDaySum(src, es, entity, f) <= 0
    ensures src.Clients? ==> EntityDaySum(src, es, entity, f) >= 0
  {
    if es != [] {
      assert forall k :: 0 <= k < |es[1..]| ==> es[1..][k] == es[k + 1];
      EntityDaySumSign(src, es[1..], entity, f);
    }
  }

  /** A report cell, read off the records of both roles. */
  lemma ReportCell(prov: seq<Entry>, cli: seq<Entry>, k: nat, j: nat)
    requires Build(prov, cli).Success?
    requires k < |Build(prov, cli).value.grid.labels| && j < |Build(prov, cli).value.grid.headings|
    ensures Build(prov, cli).value.grid.cells[k][j]
         == EntityDaySum(Clients, cli, Build(prov, cli).value.grid.labels[k], Build(prov, cli).value.grid.headings[j])
          + EntityDaySum(Suppliers, prov, Build(prov, cli).value.grid.labels[k], Build(prov, cli).value.grid.headings[j])
  {
    var lines := BuildLines(prov, cli);
    var rep := Build(prov, cli).value;
    CellIsSignedSum(prov, cli, rep.grid.labels[k], rep.grid.headings[j]);
  }

  /**
   * Sign convention: with non-negative amounts, every cell of a `PROV` row
   * is at most 0 and every cell of a `CLI` row at least 0.
   */
  lemma SignConvention(prov: seq<Entry>, cli: seq<Entry>, k: nat, j: nat)
    requires Build(prov, cli).Success?
    requires forall i :: 0 <= i < |prov| ==> prov[i].amount >= 0
    requires forall i :: 0 <= i < |cli| ==> cli[i].amount >= 0
    requires k < |Build(prov, cli).value.grid.labels| && j < |Build(prov, cli).value.grid.headings|
    ensures StartsWith(Build(prov, cli).value.grid.labels[k], "PROV - ") ==> Build(prov, cli).value.grid.cells[k][j] <= 0
    ensures StartsWith(Build(prov, cli).value.grid.labels[k], "CLI - ") ==> Build(prov, cli).value.grid.cells[k][j] >= 0
  {
    var rep := Build(prov, cli).value;
    var entity, f := rep.grid.labels[k], rep.grid.headings[j];
    ReportCell(prov, cli, k, j);
    EntityDaySumSign(Suppliers, prov, entity, f);
    EntityDaySumSign(Clients, cli, entity, f);
    RolePrefixesExclusive(entity);
    if StartsWith(entity, "PROV - ") {
      EntityDaySumOtherRole(Clients, cli, entity, f);
    }
    if StartsWith(entity, "CLI - ") {
      EntityDaySumOtherRole(Suppliers, prov, entity, f);
    }
  }

  /** A column summed down a list of rows that are cells of the named labels. */
  lemma {:induction false} ColumnTotalIsSumOver(lines: seq<Line>, labels: seq<string>, cells: seq<seq<int>>, f: string, j: nat)
    requires |cells| == |labels|
    requires forall k :: 0 <= k < |cells| ==> At(cells[k], j) == CellAt(lines, labels[k], f)
    ensures ColumnTotal(cells, j) == SumOver(OnHeading(lines, f), labels)
  {
    if cells != [] {
      ColumnTotalIsSumOver(lines, labels[1..], cells[1..], f, j);
    }
  }

  /** Every label of a line has its row in the report. */
  lemma LabelHasRow(lines: seq<Line>, headings: seq<string>, l: string)
    requires Prefixed(lines)
    requires l in LabelsOf(lines)
    ensures l in Assemble(lines, headings).grid.labels
  {
    RowsArePermutation(lines, headings);
    assert l in Index(lines);
    assert l in multiset(Index(lines));
    assert l in multiset(Assemble(lines, headings).grid.labels);
  }

  /** The total row of a report is, column by column, the total of the lines under that heading. */
  lemma AssembledTotal(lines: seq<Line>, headings: seq<string>, j: nat)
    requires Prefixed(lines)
    requires j < |headings|
    ensures Assemble(lines, headings).total[j] == Total(OnHeading(lines, headings[j]))
  {
    var rep := Assemble(lines, headings);
    RowsArePermutation(lines, headings);
    var f := headings[j];
    forall k | 0 <= k < |rep.grid.cells| ensures At(rep.grid.cells[k], j) == CellAt(lines, rep.grid.labels[k], f) {
    }
    ColumnTotalIsSumOver(lines, rep.grid.labels, rep.grid.cells, f, j);
    var ps := OnHeading(lines, f);
    forall i | 0 <= i < |ps| ensures ps[i].0 in rep.grid.labels {
      var k :| 0 <= k < |lines| && ps[i].0 == lines[k].entity;
      assert LabelsOf(lines)[k] == ps[i].0;
      LabelHasRow(lines, headings, ps[i].0);
    }
    Regroup(ps, rep.grid.labels);
  }

  /**
   * On any columns, the `TOTAL FLUJO` cell of a column is the day's net
   * cash flow: what the named clients pay in, less what the named suppliers
   * are paid, on the day that column is headed with.
   */
  lemma AssembledNetFlow(prov: seq<Entry>, cli: seq<Entry>, headings: seq<string>, j: nat)
    requires Build(prov, cli).Success?
    requires j < |headings|
    ensures Assemble(BuildLines(prov, cli), headings).total[j]
         == NamedDayTotal(Clients, cli, headings[j]) + NamedDayTotal(Suppliers, prov, headings[j])
  {
    var lines := BuildLines(prov, cli);
    var f := headings[j];
    BuildLinesPrefixed(prov, cli);
    AssembledTotal(lines, headings, j);
    var a: seq<Line>, b: seq<Line> := Lines(Suppliers, prov).value, Lines(Clients, cli).value;
    OnHeadingAppend(a, b, f);
    TotalAppend(OnHeading(a, f), OnHeading(b, f));
    LinesDayTotal(Suppliers, prov, f);
    LinesDayTotal(Clients, cli, f);
  }

  /**
   * The `TOTAL FLUJO` cell of a column is the sum of that column over all
   * entity rows, and it is the day's net cash flow: what the named clients
   * pay in, less what the named suppliers are paid.
   */
  lemma TotalIsNetFlow(prov: seq<Entry>, cli: seq<Entry>, j: nat)
    requires Build(prov, cli).Success?
    requires j < |Build(prov, cli).value.total|
    ensures Build(prov, cli).value.total[j] == ColumnTotal(Build(prov, cli).value.grid.cells, j)
    ensures Build(prov, cli).value.total[j]
         == NamedDayTotal(Clients, cli, Build(prov, cli).value.grid.headings[j])
          + NamedDayTotal(Suppliers, prov, Build(prov, cli).value.grid.headings[j])
  {
    var lines := BuildLines(prov, cli);
    AssembledNetFlow(prov, cli, HeadingsAsWritten(lines), j);
  }
}
