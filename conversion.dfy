/**
 * The amount steps on the windowed tables: the integer rounding of the
 * canonical amount column, and `monto_local`, computed by `apply_rate` from
 * the amount column the lookup found and the `moneda` label.
 */
module Conversion {
  import opened Wrappers
  import opened Records
  import opened Currency
  import opened Window

  /** Rounds every value of a column; the first one that is not a number stops the run. */
  function RoundValues(src: Source, col: string, vals: seq<Value>): (r: Result<seq<Value>, Error>)
    ensures r.Success? <==> forall k :: 0 <= k < |vals| ==> vals[k].Number?
    ensures r.Success? ==> |r.value| == |vals|
    ensures r.Success? ==> forall k :: 0 <= k < |vals| ==> r.value[k] == Number(RoundHalfEven(vals[k].x) as real)
    ensures r.Failure? ==> r.error == AmountNotNumeric(src, col)
  {
    if vals == [] then Success([])
    else
      var head :- RoundAmount(src, col, vals[0]);
      var tail :- RoundValues(src, col, vals[1..]);
      assert forall k :: 1 <= k < |vals| ==> vals[k] == vals[1..][k - 1];
      Success([head] + tail)
  }

  /**
   * The dtype `read_excel` gives column `name` is numeric when every cell
   * is a number or NaN (a column left blank in every row included).
   * Selecting rows keeps the dtype, so it is the whole sheet's column that
   * decides it.
   */
  predicate NumericColumn(t: Table, name: string) {
    forall k :: 0 <= k < |t.rows| ==> Field(t.columns, t.rows[k], name).Number? || Field(t.columns, t.rows[k], name).Missing?
  }

  /** The dtype is `datetime64` when every cell is a day or NaT. */
  predicate DayColumn(t: Table, name: string) {
    forall k :: 0 <= k < |t.rows| ==> Field(t.columns, t.rows[k], name).DateVal? || Field(t.columns, t.rows[k], name).Missing?
  }

  /** The dtype is `object` otherwise: a text somewhere, or numbers mixed with days. */
  predicate ObjectColumn(t: Table, name: string) {
    !NumericColumn(t, name) && !DayColumn(t, name)
  }

  /** A text anywhere in the column makes it `object`, and so does a number beside a day. */
  lemma ObjectColumnCases(t: Table, name: string)
    ensures ObjectColumn(t, name) <==>
      (exists k :: 0 <= k < |t.rows| && Field(t.columns, t.rows[k], name).Text?) ||
      ((exists k :: 0 <= k < |t.rows| && Field(t.columns, t.rows[k], name).Number?) &&
       (exists k :: 0 <= k < |t.rows| && Field(t.columns, t.rows[k], name).DateVal?))
  {
  }

  /**
   * `df[col] = df[col].round(0).astype(int)` for the role's canonical amount
   * column, whose dtype is numeric exactly when `numeric` holds. `round` of
   * an `object` column raises; on a numeric column the cast raises on NaN.
   */
  function RoundAmounts(src: Source, numeric: bool, t: Table): (r: Result<Table, Error>)
    requires Rectangular(t)
    ensures r.Success? <==> numeric && forall k :: 0 <= k < |t.rows| ==> Field(t.columns, t.rows[k], src.AmountColumn()).Number?
    ensures r.Success? ==> Rectangular(r.value) && |r.value.rows| == |t.rows|
    ensures r.Success? && src.AmountColumn() in t.columns ==> r.value.columns == t.columns
    ensures r.Success? ==> forall k :: 0 <= k < |t.rows| ==>
      Field(r.value.columns, r.value.rows[k], src.AmountColumn())
        == Number(RoundHalfEven(Field(t.columns, t.rows[k], src.AmountColumn()).x) as real)
    ensures r.Failure? ==> r.error == if numeric then AmountNotNumeric(src, src.AmountColumn()) else ObjectAmountColumn(src, src.AmountColumn())
  {
    var col := src.AmountColumn();
    if !numeric then Failure(ObjectAmountColumn(src, col))
    else
      var vals :- RoundValues(src, col, ColumnValues(t, col));
      var r := Assign(t, col, vals);
      assert forall k :: 0 <= k < |r.rows| ==> Field(r.columns, r.rows[k], col) == ColumnValues(r, col)[k];
      Success(r)
  }

  /** Rounding leaves every other column as it was. */
  lemma RoundAmountsTouchesOnlyAmount(src: Source, numeric: bool, t: Table, c: string, k: nat)
    requires Rectangular(t)
    requires RoundAmounts(src, numeric, t).Success?
    requires c != src.AmountColumn() && k < |t.rows|
    ensures Field(RoundAmounts(src, numeric, t).value.columns, RoundAmounts(src, numeric, t).value.rows[k], c) == Field(t.columns, t.rows[k], c)
  {
    var col := src.AmountColumn();
    var vals := RoundValues(src, col, ColumnValues(t, col)).value;
    assert RoundAmounts(src, numeric, t).value == Assign(t, col, vals);
  }

  /**
   * Rounding a column that is already rounded gives it back unchanged; the
   * rounded column holds only numbers, so its dtype is numeric.
   */
  lemma RoundAmountsIdempotent(src: Source, numeric: bool, t: Table, k: nat)
    requires Rectangular(t)
    requires RoundAmounts(src, numeric, t).Success?
    requires k < |t.rows|
    ensures NumericColumn(RoundAmounts(src, numeric, t).value, src.AmountColumn())
    ensures RoundAmounts(src, true, RoundAmounts(src, numeric, t).value).Success?
    ensures Field(RoundAmounts(src, true, RoundAmounts(src, numeric, t).value).value.columns,
                  RoundAmounts(src, true, RoundAmounts(src, numeric, t).value).value.rows[k], src.AmountColumn())
         == Field(RoundAmounts(src, numeric, t).value.columns, RoundAmounts(src, numeric, t).value.rows[k], src.AmountColumn())
  {
    var u := RoundAmounts(src, numeric, t).value;
    var col := src.AmountColumn();
    forall j | 0 <= j < |u.rows| ensures Field(u.columns, u.rows[j], col).Number? {
    }
    RoundHalfEvenOfInteger(RoundHalfEven(Field(t.columns, t.rows[k], col).x));
  }

  /**
   * A text or a day anywhere in the sheet's amount column, inside the window
   * or not, makes the rounding raise.
   */
  lemma ObjectColumnStopsRounding(src: Source, sheet: Table, w: Table, k: nat)
    requires Rectangular(w)
    requires k < |sheet.rows|
    requires Field(sheet.columns, sheet.rows[k], src.AmountColumn()).Text? || Field(sheet.columns, sheet.rows[k], src.AmountColumn()).DateVal?
    ensures RoundAmounts(src, NumericColumn(sheet, src.AmountColumn()), w) == Failure(ObjectAmountColumn(src, src.AmountColumn()))
  {
  }

  /** `df.apply(lambda r: apply_rate(r, amt_col), axis=1)` */
  function LocalAmounts(src: Source, amtCol: string, amounts: seq<Value>, currencies: seq<Value>, rate: real): (r: Result<seq<int>, Error>)
    requires |amounts| == |currencies|
    ensures r.Success? <==> forall k :: 0 <= k < |amounts| ==> amounts[k].Number?
    ensures r.Success? ==> |r.value| == |amounts|
    ensures r.Success? ==> forall k :: 0 <= k < |amounts| ==>
      Success(r.value[k]) == ApplyRate(src, amtCol, amounts[k], currencies[k], rate)
    ensures r.Failure? ==> r.error == AmountNotNumeric(src, amtCol)
  {
    if amounts == [] then Success([])
    else
      var head :- ApplyRate(src, amtCol, amounts[0], currencies[0], rate);
      var tail :- LocalAmounts(src, amtCol, amounts[1..], currencies[1..], rate);
      assert forall k :: 1 <= k < |amounts| ==> amounts[k] == amounts[1..][k - 1] && currencies[k] == currencies[1..][k - 1];
      Success([head] + tail)
  }

  const LocalAmountColumn := "monto_local"

  /** The `monto_local` cells as pandas stores them. */
  function AmountCells(amounts: seq<int>): (r: seq<Value>)
    ensures |r| == |amounts|
    ensures forall k :: 0 <= k < |r| ==> r[k] == Number(amounts[k] as real)
  {
    seq(|amounts|, k requires 0 <= k < |amounts| => Number(amounts[k] as real))
  }

  /**
   * `df["monto_local"] = df.apply(...)`: the table with the new column, and
   * the amounts it holds. On a frame with no rows, `apply` probes
   * `apply_rate` with a row of NaN, `round(nan)` raises inside the probe, and
   * `apply` returns a copy of the empty frame, whose several columns cannot
   * be assigned to the one column `monto_local`: that raises.
   */
  function AddLocalAmount(src: Source, t: Table, amtCol: string, rate: real): (r: Result<(Table, seq<int>), Error>)
    requires Rectangular(t)
    ensures r.Success? <==> |t.rows| > 0 && forall k :: 0 <= k < |t.rows| ==> Field(t.columns, t.rows[k], amtCol).Number?
    ensures r.Success? ==> Rectangular(r.value.0) && |r.value.1| == |t.rows|
    ensures r.Success? ==> r.value.0 == Assign(t, LocalAmountColumn, AmountCells(r.value.1))
    ensures r.Success? ==> forall k :: 0 <= k < |t.rows| ==>
        Success(r.value.1[k]) == ApplyRate(src, amtCol, Field(t.columns, t.rows[k], amtCol),
                                           Field(t.columns, t.rows[k], CurrencyColumn), rate)
    ensures r.Failure? ==> r.error == if |t.rows| == 0 then EmptyWindow(src) else AmountNotNumeric(src, amtCol)
  {
    if |t.rows| == 0 then Failure(EmptyWindow(src))
    else
      var amounts :- LocalAmounts(src, amtCol, ColumnValues(t, amtCol), ColumnValues(t, CurrencyColumn), rate);
      Success((Assign(t, LocalAmountColumn, AmountCells(amounts)), amounts))
  }

  /**
   * A record whose label is not USD-class gets its rounded amount as
   * `monto_local`, whatever the rate, when the lookup found the canonical
   * column that step 8 rounded.
   */
  lemma NonUsdKeepsRoundedAmount(src: Source, numeric: bool, t: Table, rate: real, k: nat)
    requires Rectangular(t)
    requires RoundAmounts(src, numeric, t).Success?
    requires AddLocalAmount(src, RoundAmounts(src, numeric, t).value, src.AmountColumn(), rate).Success?
    requires k < |t.rows|
    requires !IsUsd(Field(t.columns, t.rows[k], CurrencyColumn))
    ensures AddLocalAmount(src, RoundAmounts(src, numeric, t).value, src.AmountColumn(), rate).value.1[k]
         == RoundHalfEven(Field(t.columns, t.rows[k], src.AmountColumn()).x)
  {
    var u := RoundAmounts(src, numeric, t).value;
    var col := src.AmountColumn();
    RoundAmountsTouchesOnlyAmount(src, numeric, t, CurrencyColumn, k);
    var x := Field(t.columns, t.rows[k], col).x;
    RoundHalfEvenOfInteger(RoundHalfEven(x));
    assert Field(u.columns, u.rows[k], col) == Number(RoundHalfEven(x) as real);
    NonUsdIgnoresRate(src, col, RoundHalfEven(x) as real, Field(t.columns, t.rows[k], CurrencyColumn), rate, rate);
  }

  /** A record tagged USD-class gets its amount times the rate, rounded. */
  lemma UsdAmountIsScaled(src: Source, t: Table, amtCol: string, rate: real, k: nat)
    requires Rectangular(t)
    requires AddLocalAmount(src, t, amtCol, rate).Success?
    requires k < |t.rows|
    requires IsUsd(Field(t.columns, t.rows[k], CurrencyColumn))
    ensures AddLocalAmount(src, t, amtCol, rate).value.1[k] == RoundHalfEven(Field(t.columns, t.rows[k], amtCol).x * rate)
  {
    UsdIsScaled(src, amtCol, Field(t.columns, t.rows[k], amtCol), Field(t.columns, t.rows[k], CurrencyColumn), rate);
  }
}
