/**
 * Schema Validator and amount-column lookup: the required-column gate that
 * stops the run, and the search for the column that holds the amount.
 */
module Schema {
  import opened Wrappers
  import opened Text
  import opened Records

  function ColumnSet(columns: seq<string>): set<string> {
    set c | c in columns
  }

  /**
   * `req.issubset(df.columns)`, else `st.error` and `st.stop()`. The message
   * lists the whole required set, not only what is missing.
   */
  function Gate(src: Source, t: Table): (r: Result<Table, Error>)
    ensures r.Success? <==> src.Required() <= ColumnSet(t.columns)
    ensures r.Success? ==> r.value == t
    ensures r.Failure? ==> r.error == MissingColumns(src, src.Required())
  {
    if src.Required() <= ColumnSet(t.columns) then Success(t)
    else Failure(MissingColumns(src, src.Required()))
  }

  /** The heuristic test for the amount column of each role. */
  predicate IsAmountHeader(src: Source, c: string) {
    if src.Suppliers? then Contains(c, "valor")
    else Contains(c, "total") && Contains(c, "cobrar")
  }

  /** The position of the first column whose header passes the amount test. */
  function FindAmountIndex(src: Source, columns: seq<string>): (r: Option<nat>)
    ensures r.Some? ==> FirstAmountHeader(src, columns, r.value)
    ensures r.None? <==> forall c :: c in columns ==> !IsAmountHeader(src, c)
  {
    if columns == [] then None
    else if IsAmountHeader(src, columns[0]) then Some(0)
    else match FindAmountIndex(src, columns[1..])
      case Some(i) =>
        assert forall j :: 1 <= j <= i ==> columns[j] == columns[1..][j - 1];
        Some(i + 1)
      case None => None
  }

  /** `next((c for c in df.columns if ...), None)` */
  function FindAmountColumn(src: Source, columns: seq<string>): (r: Option<string>)
    ensures r.Some? ==> exists i :: FirstAmountHeader(src, columns, i) && columns[i] == r.value
    ensures r.None? <==> forall c :: c in columns ==> !IsAmountHeader(src, c)
  {
    match FindAmountIndex(src, columns)
    case Some(i) => Some(columns[i])
    case None => None
  }

  /** Column `i` is the first whose header passes the amount test. */
  predicate FirstAmountHeader(src: Source, columns: seq<string>, i: int) {
    0 <= i < |columns| && IsAmountHeader(src, columns[i])
    && forall j :: 0 <= j < i ==> !IsAmountHeader(src, columns[j])
  }

  /** The canonical amount column passes its role's test. */
  lemma AmountColumnIsAmountHeader(src: Source)
    ensures IsAmountHeader(src, src.AmountColumn())
  {
    var c := src.AmountColumn();
    if src.Suppliers? {
      assert StartsWith(c, "valor");
    } else {
      assert StartsWith(c, "total");
      ContainsIffOccurs(c, "cobrar");
      assert OccursAt(c, "cobrar", 8);
    }
  }

  /**
   * Once the gate has passed, the lookup always finds a column, so the
   * "amount columns not found" stop can never be reached.
   */
  lemma GatePassedFindsAmountColumn(src: Source, t: Table)
    requires Gate(src, t).Success?
    ensures src.NameColumn() in t.columns && src.DateColumn() in t.columns && src.AmountColumn() in t.columns
    ensures FindAmountColumn(src, t.columns).Some?
  {
    AmountColumnIsAmountHeader(src);
    assert src.NameColumn() in src.Required() && src.DateColumn() in src.Required() && src.AmountColumn() in src.Required();
  }

  /** The column found is the one `df[amt_col]` reads. */
  lemma FoundColumnIsFirstOfItsName(src: Source, columns: seq<string>)
    requires FindAmountColumn(src, columns).Some?
    ensures IndexOf(columns, FindAmountColumn(src, columns).value).Some?
    ensures FirstAmountHeader(src, columns, IndexOf(columns, FindAmountColumn(src, columns).value).value)
  {
    var c := FindAmountColumn(src, columns).value;
    var i :| FirstAmountHeader(src, columns, i) && columns[i] == c;
    var k := IndexOf(columns, c).value;
    assert columns[k] == c;
    assert k <= i by {
      assert forall j :: 0 <= j < k ==> columns[j] != c;
      assert columns[i] == c;
    }
  }
}
