/**
 * Currency Converter: integer rounding of the amounts and `apply_rate`,
 * which scales USD-class amounts by the exchange rate and leaves every
 * other amount as it is.
 *
 * Amounts and the rate are exact rationals here; Python's float
 * representation error is not modelled, but its rounding rule is:
 * `round` (and pandas' `.round(0)`) round half to even.
 */
module Currency {
  import opened Wrappers
  import opened Text
  import opened Records

  /** `usd_keys`; the accented spellings use U+00F3. */
  const UsdKeys: set<string> := {"usd", "u$s", "us$", "dolar", "d\U{F3}lar", "dolares", "d\U{F3}lares"}

  /**
   * `str(row["moneda"])` where it can matter: a text label is itself and
   * NaN is "nan". A number or a day stringifies to something holding a
   * digit, which no USD key does (see `NoUsdKeyHasDigit`), so it is `None`.
   */
  function LabelText(v: Value): Option<string> {
    match v
    case Text(s) => Some(s)
    case Missing => Some("nan")
    case _ => None
  }

  /** `str(row["moneda"]).lower() in usd_keys` */
  predicate IsUsd(currency: Value) {
    match LabelText(currency)
    case Some(s) => Lower(s) in UsdKeys
    case None => false
  }

  lemma NoUsdKeyHasDigit()
    ensures forall k, c :: k in UsdKeys && c in k ==> !('0' <= c <= '9')
  {
  }

  /** A blank cell is never USD, nor is any label outside the set. */
  lemma UsdLabels()
    ensures IsUsd(Text("USD")) && IsUsd(Text("US$")) && IsUsd(Text("D\U{F3}lares"))
    ensures !IsUsd(Missing) && !IsUsd(Text("local")) && !IsUsd(Text("USD "))
  {
    assert Lower("USD") == "usd";
    assert Lower("US$") == "us$";
    assert Lower("D\U{F3}lares") == "d\U{F3}lares";
    assert Lower("nan") == "nan";
    assert "nan" !in UsdKeys;
    assert |Lower("local")| == 5 && Lower("local")[0] == 'l';
    assert |Lower("USD ")| == 4;
  }

  /** No USD key holds whitespace. */
  lemma NoUsdKeyHasSpace()
    ensures forall k, c :: k in UsdKeys && c in k ==> !IsSpace(c)
  {
  }

  /**
   * The label is lower-cased but not stripped: one with whitespace at either
   * end is never USD-class, whatever it spells.
   */
  lemma PaddedLabelIsNotUsd(s: string)
    requires |s| > 0 && (IsSpace(s[0]) || IsSpace(s[|s| - 1]))
    ensures !IsUsd(Text(s))
  {
    NoUsdKeyHasSpace();
    var l := Lower(s);
    if IsSpace(s[0]) {
      assert l[0] == s[0] && l[0] in l;
    } else {
      assert l[|s| - 1] == s[|s| - 1] && l[|s| - 1] in l;
    }
  }

  /** Lower-casing a label does not change whether it is USD-class. */
  lemma UsdIgnoresCase(s: string)
    ensures IsUsd(Text(s)) == IsUsd(Text(Lower(s)))
  {
    assert Lower(Lower(s)) == Lower(s);
  }

  /** Round to the nearest integer, ties to the even neighbour. */
  function RoundHalfEven(x: real): int {
    var f := x.Floor;
    var frac := x - f as real;
    if frac < 1.0 / 2.0 then f
    else if frac > 1.0 / 2.0 then f + 1
    else if f % 2 == 0 then f else f + 1
  }

  /**
   * The result is a nearest integer; on a tie (a fractional part of exactly
   * one half) it is the even one, and otherwise it is the only nearest one.
   */
  lemma RoundHalfEvenIsNearest(x: real)
    ensures x - 1.0 / 2.0 <= RoundHalfEven(x) as real <= x + 1.0 / 2.0
    ensures x - x.Floor as real == 1.0 / 2.0 ==> RoundHalfEven(x) % 2 == 0
    ensures x - x.Floor as real != 1.0 / 2.0 ==>
      (RoundHalfEven(x) as real - x) * 2.0 != 1.0 && (x - RoundHalfEven(x) as real) * 2.0 != 1.0
  {
  }

  /** Rounding an integer-valued amount gives it back. */
  lemma RoundHalfEvenOfInteger(k: int)
    ensures RoundHalfEven(k as real) == k
  {
    assert (k as real).Floor == k;
  }

  /** Rounding a non-negative amount cannot make it negative. */
  lemma RoundHalfEvenNonNegative(x: real)
    requires x >= 0.0
    ensures RoundHalfEven(x) >= 0
  {
  }

  /**
   * `apply_rate`: `round(val * rate)` for a USD-class label, `round(val)`
   * otherwise. `round` of NaN or of a text raises, which stops the run.
   */
  function ApplyRate(src: Source, amountColumn: string, amount: Value, currency: Value, rate: real): (r: Result<int, Error>)
    ensures r.Failure? <==> !amount.Number?
    ensures r.Failure? ==> r.error == AmountNotNumeric(src, amountColumn)
  {
    match amount
    case Number(x) => Success(RoundHalfEven(if IsUsd(currency) then x * rate else x))
    case _ => Failure(AmountNotNumeric(src, amountColumn))
  }

  /** Amounts not tagged USD-class are rounded and never scaled, whatever the rate. */
  lemma NonUsdIgnoresRate(src: Source, col: string, x: real, currency: Value, rate1: real, rate2: real)
    requires !IsUsd(currency)
    ensures ApplyRate(src, col, Number(x), currency, rate1) == ApplyRate(src, col, Number(x), currency, rate2)
    ensures ApplyRate(src, col, Number(x), currency, rate1) == Success(RoundHalfEven(x))
  {
  }

  /**
   * A USD-class amount becomes a nearest integer to the amount times the
   * rate (the even one on a tie); at rate 1 it converts exactly as a local
   * amount does.
   */
  lemma UsdIsScaled(src: Source, col: string, amount: Value, currency: Value, rate: real)
    requires amount.Number? && IsUsd(currency)
    ensures ApplyRate(src, col, amount, currency, rate).Success?
    ensures amount.x * rate - 1.0 / 2.0 <= ApplyRate(src, col, amount, currency, rate).value as real <= amount.x * rate + 1.0 / 2.0
    ensures amount.x * rate - (amount.x * rate).Floor as real == 1.0 / 2.0 ==> ApplyRate(src, col, amount, currency, rate).value % 2 == 0
    ensures ApplyRate(src, col, amount, currency, 1.0) == ApplyRate(src, col, amount, Missing, rate)
  {
    var y := amount.x * rate;
    RoundHalfEvenIsNearest(y);
    assert ApplyRate(src, col, amount, currency, rate) == Success(RoundHalfEven(y));
    assert !IsUsd(Missing) by {
      UsdLabels();
    }
    assert ApplyRate(src, col, amount, currency, 1.0) == Success(RoundHalfEven(amount.x * 1.0));
    assert ApplyRate(src, col, amount, Missing, rate) == Success(RoundHalfEven(amount.x));
    assert amount.x * 1.0 == amount.x;
  }

  /** Non-negative amounts and a non-negative rate give a non-negative local amount. */
  lemma LocalAmountNonNegative(src: Source, col: string, x: real, currency: Value, rate: real)
    requires x >= 0.0 && rate >= 0.0
    ensures ApplyRate(src, col, Number(x), currency, rate).value >= 0
  {
    RoundHalfEvenNonNegative(x);
    assert x * rate >= 0.0 by {
      if x > 0.0 && rate > 0.0 {
        assert x * rate > 0.0;
      }
    }
    RoundHalfEvenNonNegative(x * rate);
  }

  /**
   * The step before `apply_rate`: `df[col].round(0).astype(int)`. A NaN or
   * a text in the column makes the cast raise, which stops the run.
   */
  function RoundAmount(src: Source, col: string, v: Value): (r: Result<Value, Error>)
    ensures r.Success? <==> v.Number?
    ensures r.Success? ==> r.value == Number(RoundHalfEven(v.x) as real)
    ensures r.Failure? ==> r.error == AmountNotNumeric(src, col)
  {
    match v
    case Number(x) => Success(Number(RoundHalfEven(x) as real))
    case _ => Failure(AmountNotNumeric(src, col))
  }

  /**
   * When the lookup returns the canonical amount column, a non-USD record's
   * local amount is exactly its rounded amount.
   */
  lemma RoundedThenConverted(src: Source, x: real, currency: Value, rate: real)
    requires !IsUsd(currency)
    ensures ApplyRate(src, src.AmountColumn(), RoundAmount(src, src.AmountColumn(), Number(x)).value, currency, rate)
         == Success(RoundHalfEven(x))
  {
    RoundHalfEvenOfInteger(RoundHalfEven(x));
  }
}
