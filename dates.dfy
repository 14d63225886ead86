/**
 * The triangle's `valuation_date` and its rendering by
 * `strftime('%Y-%m-%d')`, with a reader for the rendered text.
 */
module Dates {
  import opened Wrappers

  /** A pandas Timestamp: a calendar date and the nanoseconds into that day. */
  datatype Timestamp = Timestamp(year: int, month: int, day: int, nanosOfDay: nat)

  predicate IsLeapYear(y: int) {
    y % 4 == 0 && (y % 100 != 0 || y % 400 == 0)
  }

  function DaysInMonth(y: int, m: int): int
    requires 1 <= m <= 12
  {
    if m == 2 then (if IsLeapYear(y) then 29 else 28)
    else if m == 4 || m == 6 || m == 9 || m == 11 then 30
    else 31
  }

  /** A nanosecond Timestamp holds a real date between the years 1677 and
      2262 and a time of day shorter than one day. */
  predicate ValidTimestamp(t: Timestamp) {
    1677 <= t.year <= 2262 && 1 <= t.month <= 12 &&
    1 <= t.day <= DaysInMonth(t.year, t.month) &&
    t.nanosOfDay < 86_400_000_000_000
  }

  function Pow10(w: nat): (p: nat)
    ensures p >= 1
  {
    if w == 0 then 1 else 10 * Pow10(w - 1)
  }

  predicate IsDigit(c: char) {
    '0' <= c <= '9'
  }

  function DigitChar(n: int): (c: char)
    requires 0 <= n < 10
    ensures IsDigit(c)
  {
    ('0' as int + n) as char
  }

  /** n written in decimal with exactly w digits, zero-padded on the left. */
  function Digits(n: nat, w: nat): (s: string)
    requires n < Pow10(w)
    ensures |s| == w && forall i :: 0 <= i < w ==> IsDigit(s[i])
  {
    if w == 0 then ""
    else Digits(n / 10, w - 1) + [DigitChar(n % 10)]
  }

  function ParseDigits(s: string): nat
    requires forall i :: 0 <= i < |s| ==> IsDigit(s[i])
  {
    if s == [] then 0
    else
      assert IsDigit(s[|s| - 1]);
      ParseDigits(s[..|s| - 1]) * 10 + (s[|s| - 1] as int - '0' as int)
  }

  lemma {:induction false} DigitsRoundTrip(n: nat, w: nat)
    requires n < Pow10(w)
    ensures ParseDigits(Digits(n, w)) == n
  {
    if w > 0 {
      var s := Digits(n, w);
      DigitsRoundTrip(n / 10, w - 1);
      assert s[..w - 1] == Digits(n / 10, w - 1);
    }
  }

  /** `strftime('%Y-%m-%d')`: the date part only; the time of day is dropped. */
  function Strftime(t: Timestamp): string
    requires ValidTimestamp(t)
  {
    Digits(t.year, 4) + "-" + Digits(t.month, 2) + "-" + Digits(t.day, 2)
  }

  /** Reads a "YYYY-MM-DD" string back into (year, month, day). */
  function ParseIsoDate(s: string): Option<(int, int, int)> {
    if |s| == 10 && s[4] == '-' && s[7] == '-' &&
       (forall i :: 0 <= i < 10 && i != 4 && i != 7 ==> IsDigit(s[i]))
    then
      assert forall i :: 0 <= i < 4 ==> IsDigit(s[..4][i]);
      assert forall i :: 0 <= i < 2 ==> IsDigit(s[5..7][i]) && IsDigit(s[8..][i]);
      Some((ParseDigits(s[..4]), ParseDigits(s[5..7]), ParseDigits(s[8..])))
    else None
  }

  /** The valuation date renders as ten characters "YYYY-MM-DD" from which
      the year, month and day read back exactly; the time of day is lost. */
  lemma IsoDateRoundTrip(t: Timestamp)
    requires ValidTimestamp(t)
    ensures var s := Strftime(t);
      |s| == 10 && s[4] == '-' && s[7] == '-' &&
      ParseIsoDate(s) == Some((t.year, t.month, t.day))
  {
    var y, m, d := Digits(t.year, 4), Digits(t.month, 2), Digits(t.day, 2);
    var s := Strftime(t);
    assert s[..4] == y && s[5..7] == m && s[8..] == d;
    DigitsRoundTrip(t.year, 4);
    DigitsRoundTrip(t.month, 2);
    DigitsRoundTrip(t.day, 2);
  }
}
