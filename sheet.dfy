/**
 * Sheet Writer: the rows of the finished ledger written one by one onto a
 * fresh worksheet. Each row is cleaned, appended, and then styled cell by
 * cell over the whole width of the sheet: the heading row centred and not
 * bold, the `TOTAL FLUJO` row bold, and every cell past the label column of
 * every row but the first right-aligned with the number format `#,##0`.
 */
module Sheet {
  import opened Wrappers
  import opened Dates
  import Ledger

  /** A value `dataframe_to_rows` yields: `None`, NaN, a day, a string or an integer. */
  datatype Raw = NoneVal | NaN | Day(d: Date) | Str(s: string) | Int(n: int)

  /** What a worksheet cell holds: nothing, a string or an integer. */
  datatype CellValue = Empty | Chars(s: string) | Whole(n: int)

  datatype Align = General | Center | Right

  datatype Cell = Cell(value: CellValue, bold: bool, align: Align, numberFormat: string)

  const GeneralFormat := "General"
  const ThousandsFormat := "#,##0"

  /** A new cell: default font, alignment and number format. */
  function Plain(v: CellValue): Cell {
    Cell(v, false, General, GeneralFormat)
  }

  /**
   * The cleaning of one value before `ws.append`: `None` and NaN become the
   * empty string, a day its `DD-MM-YYYY` form, numbers and strings stay.
   */
  function Clean(v: Raw): (r: CellValue)
    ensures r != Empty
    ensures (v.NoneVal? || v.NaN?) ==> r == Chars("")
    ensures v.Day? ==> r.Chars? && |r.s| == 10 && r.s[2] == '-' && r.s[5] == '-'
    ensures v.Str? ==> r == Chars(v.s)
    ensures v.Int? ==> r == Whole(v.n)
  {
    match v
    case NoneVal => Chars("")
    case NaN => Chars("")
    case Day(d) => Chars(Format(d))
    case Str(s) => Chars(s)
    case Int(n) => Whole(n)
  }

  /** A cleaned day reads back as the day it was, for any day pandas can hold. */
  lemma CleanDayRoundTrip(d: Date)
    requires Valid(d) && InTimestampRange(d)
    ensures ParseDisplay(Clean(Day(d)).s) == Some(d)
  {
    FormatRoundTrip(d);
  }

  /** `cleaned_row` for a whole row. */
  function Cleaned(row: seq<Raw>): (r: seq<CellValue>)
    ensures |r| == |row|
    ensures forall i :: 0 <= i < |row| ==> r[i] == Clean(row[i])
  {
    seq(|row|, i requires 0 <= i < |row| => Clean(row[i]))
  }

  /** The inner loop that builds `cleaned_row`. */
  method CleanRow(row: seq<Raw>) returns (cleaned: seq<CellValue>)
    ensures cleaned == Cleaned(row)
  {
    cleaned := [];
    for i := 0 to |row|
      invariant |cleaned| == i
      invariant forall k :: 0 <= k < i ==> cleaned[k] == Clean(row[k])
    {
      cleaned := cleaned + [Clean(row[i])];
    }
  }

  function Max(a: nat, b: nat): nat {
    if a < b then b else a
  }

  /** `max_column`: the width of the widest row, 1 for an empty sheet. */
  function Widest<T>(rs: seq<seq<T>>): (n: nat)
    ensures n >= 1
    ensures forall k :: 0 <= k < |rs| ==> |rs[k]| <= n
    ensures n == 1 || exists k :: 0 <= k < |rs| && |rs[k]| == n
  {
    if rs == [] then 1
    else
      var init := rs[..|rs| - 1];
      assert forall k :: 0 <= k < |init| ==> init[k] == rs[k];
      Max(Widest(init), |rs[|rs| - 1]|)
  }

  lemma WidestSnoc<T>(rs: seq<seq<T>>, row: seq<T>)
    ensures Widest(rs + [row]) == Max(Widest(rs), |row|)
  {
    assert (rs + [row])[..|rs|] == rs;
  }

  /** A row reached out to width `w` with new empty cells. */
  function Extend(row: seq<Cell>, w: nat): (r: seq<Cell>)
    ensures |r| == Max(|row|, w)
    ensures forall c :: 0 <= c < |row| ==> r[c] == row[c]
    ensures forall c :: |row| <= c < |r| ==> r[c] == Plain(Empty)
  {
    if |row| < w then row + seq(w - |row|, _ => Plain(Empty)) else row
  }

  /** The new cells `ws.append` creates, one per value. */
  function PlainRow(values: seq<CellValue>): (r: seq<Cell>)
    ensures |r| == |values|
    ensures forall c :: 0 <= c < |r| ==> r[c] == Plain(values[c])
  {
    seq(|values|, c requires 0 <= c < |values| => Plain(values[c]))
  }

  /** The style the loop gives the cell of 1-based row `r` and column `c`. */
  function Styled(cell: Cell, r: nat, c: nat, isTotal: bool): Cell {
    if r == 1 then cell.(bold := false, align := Center)
    else if c > 1 then cell.(bold := isTotal, align := Right, numberFormat := ThousandsFormat)
    else cell.(bold := isTotal)
  }

  function StyledRow(row: seq<Cell>, r: nat, isTotal: bool): (s: seq<Cell>)
    ensures |s| == |row|
    ensures forall c :: 0 <= c < |row| ==> s[c] == Styled(row[c], r, c + 1, isTotal)
  {
    seq(|row|, c requires 0 <= c < |row| => Styled(row[c], r, c + 1, isTotal))
  }

  /** `ws.cell(row=r, column=1).value == "TOTAL FLUJO"` right after the row is appended. */
  predicate IsTotalRow(row: seq<Raw>) {
    |row| > 0 && Clean(row[0]) == Chars(Ledger.TotalLabel)
  }

  /** Row `k` (0-based) of the sheet once the loop has written it. */
  function WrittenRow(input: seq<seq<Raw>>, k: nat): (r: seq<Cell>)
    requires k < |input|
    ensures |r| == Widest(input[..k + 1])
  {
    assert input[..k + 1][k] == input[k];
    StyledRow(Extend(PlainRow(Cleaned(input[k])), Widest(input[..k + 1])), k + 1, IsTotalRow(input[k]))
  }

  /** The sheet the loop leaves: every row written. */
  function Written(input: seq<seq<Raw>>): (r: seq<seq<Cell>>)
    ensures |r| == |input|
    ensures forall k :: 0 <= k < |input| ==> r[k] == WrittenRow(input, k)
  {
    seq(|input|, k requires 0 <= k < |input| => WrittenRow(input, k))
  }

  /** The active worksheet of a new workbook. */
  class Worksheet {
    var rows: seq<seq<Cell>>

    constructor()
      ensures rows == []
    {
      rows := [];
    }

    function MaxColumn(): nat
      reads this
    {
      Widest(rows)
    }

    /** `ws.append(values)`: a new row below the last, one new cell per value. */
    method Append(values: seq<CellValue>)
      modifies this
      ensures rows == old(rows) + [PlainRow(values)]
    {
      rows := rows + [PlainRow(values)];
    }

    /** `ws[r]`: row `r` reached out to `max_column`, the missing cells created empty. */
    method Touch(r: nat)
      requires 1 <= r <= |rows|
      modifies this
      ensures rows == old(rows)[r - 1 := Extend(old(rows)[r - 1], old(MaxColumn()))]
    {
      rows := rows[r - 1 := Extend(rows[r - 1], MaxColumn())];
    }

    /** `for c_idx, cell in enumerate(ws[r], start=1)`: each cell of row `r` styled in turn. */
    method StyleRow(r: nat, isTotal: bool)
      requires 1 <= r <= |rows|
      modifies this
      ensures rows == old(rows)[r - 1 := StyledRow(old(rows)[r - 1], r, isTotal)]
    {
      var row := rows[r - 1];
      var c := 0;
      while c < |row|
        invariant 0 <= c <= |row|
        invariant |rows| == |old(rows)| && row == old(rows)[r - 1]
        invariant forall k :: 0 <= k < |rows| && k != r - 1 ==> rows[k] == old(rows)[k]
        invariant |rows[r - 1]| == |row|
        invariant forall i :: 0 <= i < c ==> rows[r - 1][i] == Styled(row[i], r, i + 1, isTotal)
        invariant forall i :: c <= i < |row| ==> rows[r - 1][i] == row[i]
      {
        rows := rows[r - 1 := rows[r - 1][c := Styled(rows[r - 1][c], r, c + 1, isTotal)]];
        c := c + 1;
      }
      assert rows[r - 1] == StyledRow(row, r, isTotal);
    }
  }

  /**
   * The writing loop over `enumerate(dataframe_to_rows(...), start=1)`: each
   * row cleaned, appended, tested for `TOTAL FLUJO`, reached out to the sheet's
   * width and styled.
   */
  method WriteRows(ws: Worksheet, input: seq<seq<Raw>>)
    requires ws.rows == []
    modifies ws
    ensures ws.rows == Written(input)
  {
    var r := 0;
    while r < |input|
      invariant 0 <= r <= |input| && |ws.rows| == r
      invariant forall k :: 0 <= k < r ==> ws.rows[k] == WrittenRow(input, k)
      invariant ws.MaxColumn() == Widest(input[..r])
    {
      ghost var prev := ws.rows;
      WriteRow(ws, input, r);
      WrittenSnoc(prev, input, r);
      r := r + 1;
    }
  }

  /** The rows written so far, with row `r` written below them. */
  lemma WrittenSnoc(prev: seq<seq<Cell>>, input: seq<seq<Raw>>, r: nat)
    requires |prev| == r < |input|
    requires forall k :: 0 <= k < r ==> prev[k] == WrittenRow(input, k)
    ensures forall k :: 0 <= k < r + 1 ==> (prev + [WrittenRow(input, r)])[k] == WrittenRow(input, k)
  {
    forall k | 0 <= k < r + 1 ensures (prev + [WrittenRow(input, r)])[k] == WrittenRow(input, k) {
      if k < r {
        assert (prev + [WrittenRow(input, r)])[k] == prev[k];
      }
    }
  }

  /** One pass of the writing loop: row `r` (0-based) of the input onto the sheet. */
  method WriteRow(ws: Worksheet, input: seq<seq<Raw>>, r: nat)
    requires r < |input| && |ws.rows| == r
    requires ws.MaxColumn() == Widest(input[..r])
    modifies ws
    ensures ws.rows == old(ws.rows) + [WrittenRow(input, r)]
    ensures ws.MaxColumn() == Widest(input[..r + 1])
  {
    ghost var before := ws.rows;
    var isTotal := AppendRow(ws, input[r], r);
    WidestStep(input, r);
    WidestSnoc(before, PlainRow(Cleaned(input[r])));
    ws.Touch(r + 1);
    assert ws.rows == before + [Extend(PlainRow(Cleaned(input[r])), Widest(input[..r + 1]))];
    ws.StyleRow(r + 1, isTotal);
    assert ws.rows == before + [WrittenRow(input, r)];
    WidestSnoc(before, WrittenRow(input, r));
  }

  /**
   * The first half of a pass: the row cleaned and appended as row `r + 1`,
   * then `ws.cell(row=r + 1, column=1).value == "TOTAL FLUJO"` read back.
   */
  method AppendRow(ws: Worksheet, row: seq<Raw>, r: nat) returns (isTotal: bool)
    requires |ws.rows| == r
    modifies ws
    ensures ws.rows == old(ws.rows) + [PlainRow(Cleaned(row))]
    ensures isTotal == IsTotalRow(row)
  {
    var cleaned := CleanRow(row);
    ws.Append(cleaned);
    isTotal := |ws.rows[r]| > 0 && ws.rows[r][0].value == Chars(Ledger.TotalLabel);
  }

  lemma WidestStep<T>(input: seq<seq<T>>, r: nat)
    requires r < |input|
    ensures Widest(input[..r + 1]) == Max(Widest(input[..r]), |input[r]|)
  {
    assert input[..r + 1] == input[..r] + [input[r]];
    WidestSnoc(input[..r], input[r]);
  }

  /** A written cell: the cleaned value, or an empty cell past the row's end, styled. */
  lemma WrittenCell(input: seq<seq<Raw>>, k: nat, c: nat)
    requires k < |input| && c < |WrittenRow(input, k)|
    ensures WrittenRow(input, k)[c]
         == Styled(if c < |input[k]| then Plain(Clean(input[k][c])) else Plain(Empty), k + 1, c + 1, IsTotalRow(input[k]))
  {
  }

  /** The report's cells as the integers `tolist` gives. */
  function IntRow(xs: seq<int>): (r: seq<Raw>)
    ensures |r| == |xs|
    ensures forall j :: 0 <= j < |xs| ==> r[j] == Int(xs[j])
  {
    seq(|xs|, j requires 0 <= j < |xs| => Int(xs[j]))
  }

  /** The headings as the strings they are. */
  function StrRow(hs: seq<string>): (r: seq<Raw>)
    ensures |r| == |hs|
    ensures forall j :: 0 <= j < |hs| ==> r[j] == Str(hs[j])
  {
    seq(|hs|, j requires 0 <= j < |hs| => Str(hs[j]))
  }

  /** A row: the index value, then the values of the columns. */
  function IndexedRow(first: Raw, rest: seq<Raw>): (r: seq<Raw>)
    ensures |r| == |rest| + 1 && r[0] == first
    ensures forall c :: 1 <= c < |r| ==> r[c] == rest[c - 1]
  {
    [first] + rest
  }

  /** A report whose rows and total row all span its headings, as every assembled report does. */
  predicate Shaped(rep: Ledger.Report) {
    && |rep.grid.cells| == |rep.grid.labels|
    && (forall k :: 0 <= k < |rep.grid.cells| ==> |rep.grid.cells[k]| == |rep.grid.headings|)
    && |rep.total| == |rep.grid.headings|
  }

  lemma AssembledIsShaped(lines: seq<Ledger.Line>, headings: seq<string>)
    ensures Shaped(Ledger.Assemble(lines, headings))
  {
  }

  /**
   * `dataframe_to_rows(pivot, index=True, header=True)`: the headings behind
   * an empty corner, the index names (`[None]`, since the total row carries
   * no index name), then a row per label and the `TOTAL FLUJO` row.
   */
  function LedgerRows(rep: Ledger.Report): (rows: seq<seq<Raw>>)
    requires Shaped(rep)
    ensures |rows| == |rep.grid.labels| + 3
    ensures rows[0] == IndexedRow(NoneVal, StrRow(rep.grid.headings))
    ensures rows[1] == [NoneVal]
    ensures forall r :: 2 <= r < |rows| - 1 ==> rows[r] == IndexedRow(Str(rep.grid.labels[r - 2]), IntRow(rep.grid.cells[r - 2]))
    ensures rows[|rows| - 1] == IndexedRow(Str(Ledger.TotalLabel), IntRow(rep.total))
  {
    var n := |rep.grid.labels|;
    var body := seq(n, k requires 0 <= k < n => IndexedRow(Str(rep.grid.labels[k]), IntRow(rep.grid.cells[k])));
    [IndexedRow(NoneVal, StrRow(rep.grid.headings))] + [[NoneVal]] + body
    + [IndexedRow(Str(Ledger.TotalLabel), IntRow(rep.total))]
  }

  /** Every prefix of the ledger rows is as wide as the heading row. */
  lemma LedgerRowsWidth(rep: Ledger.Report, k: nat)
    requires Shaped(rep)
    requires k < |LedgerRows(rep)|
    ensures Widest(LedgerRows(rep)[..k + 1]) == |rep.grid.headings| + 1
  {
    var rows := LedgerRows(rep);
    var pre := rows[..k + 1];
    var n := |rep.grid.headings| + 1;
    forall i | 0 <= i < |pre| ensures |pre[i]| <= n {
      assert pre[i] == rows[i];
    }
    assert |pre[0]| == n;
    if Widest(pre) != 1 {
      var i :| 0 <= i < |pre| && |pre[i]| == Widest(pre);
    }
  }

  /** Every row of the written ledger spans the label column and one column per heading. */
  lemma SheetWidth(rep: Ledger.Report)
    requires Shaped(rep)
    ensures forall r :: 0 <= r < |Written(LedgerRows(rep))| ==> |Written(LedgerRows(rep))[r]| == |rep.grid.headings| + 1
  {
    forall r | 0 <= r < |LedgerRows(rep)| ensures |Written(LedgerRows(rep))[r]| == |rep.grid.headings| + 1 {
      LedgerRowsWidth(rep, r);
    }
  }

  /**
   * Only the `TOTAL FLUJO` row is bold, as long as no entity row is labelled
   * `TOTAL FLUJO`.
   */
  lemma OnlyTotalRowBold(rep: Ledger.Report)
    requires Shaped(rep)
    requires forall l :: l in rep.grid.labels ==> l != Ledger.TotalLabel
    ensures var s := Written(LedgerRows(rep));
      forall r, c :: 0 <= r < |s| && 0 <= c < |s[r]| ==> (s[r][c].bold <==> r == |s| - 1)
  {
    var rows := LedgerRows(rep);
    forall r, c | 0 <= r < |rows| && 0 <= c < |WrittenRow(rows, r)|
      ensures WrittenRow(rows, r)[c].bold <==> r == |rows| - 1
    {
      WrittenCell(rows, r, c);
      if 2 <= r < |rows| - 1 {
        assert rep.grid.labels[r - 2] in rep.grid.labels;
      }
    }
  }

  /**
   * Every cell past the label column of every row but the heading row is
   * right-aligned with `#,##0`; the heading row is centred; the label column
   * below it keeps the default alignment and number format.
   */
  lemma AmountCellsFormatted(rep: Ledger.Report)
    requires Shaped(rep)
    ensures var s := Written(LedgerRows(rep));
      forall r, c :: 0 <= r < |s| && 0 <= c < |s[r]| ==> (s[r][c].numberFormat == ThousandsFormat <==> r >= 1 && c >= 1)
    ensures var s := Written(LedgerRows(rep));
      forall r, c :: 0 <= r < |s| && 0 <= c < |s[r]| ==> s[r][c].align == (if r == 0 then Center else if c == 0 then General else Right)
  {
    var rows := LedgerRows(rep);
    forall r, c | 0 <= r < |rows| && 0 <= c < |WrittenRow(rows, r)|
      ensures WrittenRow(rows, r)[c].numberFormat == ThousandsFormat <==> r >= 1 && c >= 1
      ensures WrittenRow(rows, r)[c].align == (if r == 0 then Center else if c == 0 then General else Right)
    {
      WrittenCell(rows, r, c);
    }
  }

  /**
   * What the sheet shows, cell by cell: the headings after an empty corner,
   * an empty index row, each label with its cells, and the `TOTAL FLUJO` row
   * with the column totals.
   */
  lemma SheetValues(rep: Ledger.Report)
    requires Shaped(rep)
    ensures var s := Written(LedgerRows(rep));
      forall r, c :: 0 <= r < |s| && 0 <= c < |s[r]| ==> s[r][c].value == CellValueAt(rep, r, c)
  {
    forall r, c | 0 <= r < |LedgerRows(rep)| && 0 <= c < |WrittenRow(LedgerRows(rep), r)|
      ensures WrittenRow(LedgerRows(rep), r)[c].value == CellValueAt(rep, r, c)
    {
      SheetCellValue(rep, r, c);
    }
  }

  lemma SheetCellValue(rep: Ledger.Report, r: nat, c: nat)
    requires Shaped(rep)
    requires r < |LedgerRows(rep)| && c < |WrittenRow(LedgerRows(rep), r)|
    ensures WrittenRow(LedgerRows(rep), r)[c].value == CellValueAt(rep, r, c)
  {
    var rows := LedgerRows(rep);
    LedgerRowsWidth(rep, r);
    WrittenValue(rows, r, c);
    if r == 0 {
      assert rows[r] == IndexedRow(NoneVal, StrRow(rep.grid.headings));
    } else if r == 1 {
      assert rows[r] == [NoneVal];
    } else if r < |rows| - 1 {
      assert rows[r] == IndexedRow(Str(rep.grid.labels[r - 2]), IntRow(rep.grid.cells[r - 2]));
    } else {
      assert rows[r] == IndexedRow(Str(Ledger.TotalLabel), IntRow(rep.total));
    }
  }

  /** Styling keeps the value: a written cell holds its cleaned value, or nothing past the row's end. */
  lemma WrittenValue(input: seq<seq<Raw>>, k: nat, c: nat)
    requires k < |input| && c < |WrittenRow(input, k)|
    ensures WrittenRow(input, k)[c].value == if c < |input[k]| then Clean(input[k][c]) else Empty
  {
    WrittenCell(input, k, c);
  }

  /** The value the ledger puts at 0-based row `r` and column `c` of the sheet. */
  function CellValueAt(rep: Ledger.Report, r: nat, c: nat): CellValue
    requires Shaped(rep)
  {
    var n := |rep.grid.labels|;
    if r == 0 then (if c == 0 then Chars("") else if c - 1 < |rep.grid.headings| then Chars(rep.grid.headings[c - 1]) else Empty)
    else if r == 1 then (if c == 0 then Chars("") else Empty)
    else if r < n + 2 then
      (if c == 0 then Chars(rep.grid.labels[r - 2]) else if c - 1 < |rep.grid.headings| then Whole(rep.grid.cells[r - 2][c - 1]) else Empty)
    else (if c == 0 then Chars(Ledger.TotalLabel) else if c - 1 < |rep.total| then Whole(rep.total[c - 1]) else Empty)
  }
}
