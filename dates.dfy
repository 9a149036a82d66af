/**
 * Calendar dates as the pipeline sees them after `.dt.date`: a day with
 * no time, ordered by the calendar, and rendered as `DD-MM-YYYY`
 * (`strftime("%d-%m-%Y")`).
 */
module Dates {
  import opened Wrappers
  import Sorting

  datatype Date = Date(year: nat, month: nat, day: nat)

  predicate IsLeapYear(y: nat) {
    y % 4 == 0 && (y % 100 != 0 || y % 400 == 0)
  }

  function DaysInMonth(y: nat, m: nat): nat {
    if m == 2 then (if IsLeapYear(y) then 29 else 28)
    else if m == 4 || m == 6 || m == 9 || m == 11 then 30
    else 31
  }

  /** A day that exists in the proleptic Gregorian calendar. */
  predicate Valid(d: Date) {
    1 <= d.month <= 12 && 1 <= d.day <= DaysInMonth(d.year, d.month)
  }

  /** Calendar order: `a` is an earlier day than `b`. */
  predicate Before(a: Date, b: Date) {
    || a.year < b.year
    || (a.year == b.year && a.month < b.month)
    || (a.year == b.year && a.month == b.month && a.day < b.day)
  }

  predicate NotAfter(a: Date, b: Date) {
    a == b || Before(a, b)
  }

  lemma BeforeIsStrictOrder()
    ensures Sorting.IsStrictOrder(Before)
  {
  }

  lemma NotAfterTransitive(a: Date, b: Date, c: Date)
    requires NotAfter(a, b) && NotAfter(b, c)
    ensures NotAfter(a, c)
  {
  }

  /** Python's `min` on two `datetime.date` values. */
  function Min(a: Date, b: Date): (r: Date)
    ensures r == a || r == b
    ensures NotAfter(r, a) && NotAfter(r, b)
  {
    if NotAfter(a, b) then a else b
  }

  /** Python's `max` on two `datetime.date` values. */
  function Max(a: Date, b: Date): (r: Date)
    ensures r == a || r == b
    ensures NotAfter(a, r) && NotAfter(b, r)
  {
    if NotAfter(b, a) then a else b
  }

  /** The earliest of a non-empty list of days (`Series.min()` with no NaT). */
  function Earliest(ds: seq<Date>): (r: Date)
    requires |ds| > 0
    ensures r in ds
    ensures forall k :: 0 <= k < |ds| ==> NotAfter(r, ds[k])
  {
    if |ds| == 1 then ds[0]
    else
      var rest := Earliest(ds[1..]);
      assert forall k :: 1 <= k < |ds| ==> ds[k] == ds[1..][k - 1];
      Min(ds[0], rest)
  }

  /** The latest of a non-empty list of days (`Series.max()` with no NaT). */
  function Latest(ds: seq<Date>): (r: Date)
    requires |ds| > 0
    ensures r in ds
    ensures forall k :: 0 <= k < |ds| ==> NotAfter(ds[k], r)
  {
    if |ds| == 1 then ds[0]
    else
      var rest := Latest(ds[1..]);
      assert forall k :: 1 <= k < |ds| ==> ds[k] == ds[1..][k - 1];
      Max(ds[0], rest)
  }

  const TimestampMin := Date(1677, 9, 22)
  const TimestampMax := Date(2262, 4, 11)

  /**
   * The days pandas can hold as a `Timestamp` (nanoseconds in a signed
   * 64-bit integer: from 1677-09-21 00:12:43 to 2262-04-11 23:47:16). The
   * first day is only partly representable; the model counts it as outside.
   */
  predicate InTimestampRange(d: Date) {
    NotAfter(TimestampMin, d) && NotAfter(d, TimestampMax)
  }

  function DigitChar(n: nat): char
    requires n < 10
  {
    ('0' as int + n) as char
  }

  function DigitValue(c: char): Option<nat> {
    if '0' <= c <= '9' then Some(c as int - '0' as int) else None
  }

  /** `n` written with exactly `width` decimal digits, zero-padded (keeps the low digits). */
  function Padded(n: nat, width: nat): (r: string)
    ensures |r| == width
    ensures forall k :: 0 <= k < |r| ==> '0' <= r[k] <= '9'
  {
    if width == 0 then [] else Padded(n / 10, width - 1) + [DigitChar(n % 10)]
  }

  /** The number a string of decimal digits spells, if it is all digits. */
  function DigitsValue(s: string): Option<nat> {
    if s == [] then Some(0)
    else match (DigitsValue(s[..|s| - 1]), DigitValue(s[|s| - 1]))
      case (Some(high), Some(low)) => Some(10 * high + low)
      case _ => None
  }

  function Pow10(k: nat): (r: nat)
    ensures r > 0
  {
    if k == 0 then 1 else 10 * Pow10(k - 1)
  }

  /** A number that fits in `width` digits is read back from its padded form. */
  lemma {:induction false} PaddedRoundTrip(n: nat, width: nat)
    requires n < Pow10(width)
    ensures DigitsValue(Padded(n, width)) == Some(n)
  {
    if width > 0 {
      var s := Padded(n, width);
      assert s[..|s| - 1] == Padded(n / 10, width - 1);
      assert n == 10 * (n / 10) + n % 10;
      assert n / 10 < Pow10(width - 1);
      PaddedRoundTrip(n / 10, width - 1);
    }
  }

  /** `strftime("%d-%m-%Y")` */
  function Format(d: Date): (r: string)
    ensures |r| == 10 && r[2] == '-' && r[5] == '-'
  {
    Padded(d.day, 2) + "-" + Padded(d.month, 2) + "-" + Padded(d.year, 4)
  }

  /** A day of the month below 10 is written with a leading zero. */
  lemma PaddedOneDigit(n: nat)
    requires n < 10
    ensures Padded(n, 2) == ['0', DigitChar(n)]
  {
    assert Padded(n / 10, 1) == Padded(0, 0) + [DigitChar(0)];
  }

  /** The first two characters of the display form are the day of the month. */
  lemma FormatStartsWithDay(d: Date)
    ensures Format(d)[..2] == Padded(d.day, 2)
  {
  }

  /** Reads a `DD-MM-YYYY` string back into the day it names. */
  function ParseDisplay(s: string): Option<Date> {
    if |s| != 10 || s[2] != '-' || s[5] != '-' then None
    else match (DigitsValue(s[0..2]), DigitsValue(s[3..5]), DigitsValue(s[6..10]))
      case (Some(dd), Some(mm), Some(yyyy)) =>
        var d := Date(yyyy, mm, dd);
        if Valid(d) then Some(d) else None
      case _ => None
  }

  /** Every valid four-digit-year date survives the display round trip. */
  lemma FormatRoundTrip(d: Date)
    requires Valid(d) && d.year < 10000
    ensures ParseDisplay(Format(d)) == Some(d)
  {
    var s := Format(d);
    assert Pow10(2) == 100 && Pow10(4) == 10000;
    assert s[0..2] == Padded(d.day, 2);
    assert s[3..5] == Padded(d.month, 2);
    assert s[6..10] == Padded(d.year, 4);
    PaddedRoundTrip(d.day, 2);
    PaddedRoundTrip(d.month, 2);
    PaddedRoundTrip(d.year, 4);
  }

  /** Distinct days in pandas' range never share a column heading. */
  lemma FormatInjective(a: Date, b: Date)
    requires Valid(a) && InTimestampRange(a)
    requires Valid(b) && InTimestampRange(b)
    requires Format(a) == Format(b)
    ensures a == b
  {
    FormatRoundTrip(a);
    FormatRoundTrip(b);
  }

  /** `pd.to_datetime` on an ISO `YYYY-MM-DD` string, coerced to NaT when it is no day. */
  function ParseIso(s: string): Option<Date> {
    if |s| != 10 || s[4] != '-' || s[7] != '-' then None
    else match (DigitsValue(s[0..4]), DigitsValue(s[5..7]), DigitsValue(s[8..10]))
      case (Some(yyyy), Some(mm), Some(dd)) =>
        var d := Date(yyyy, mm, dd);
        if Valid(d) && InTimestampRange(d) then Some(d) else None
      case _ => None
  }
}
