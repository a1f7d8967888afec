/** Calendar dates as read by Python's `date.fromisoformat`, which (before
    Python 3.11) accepts exactly the form `YYYY-MM-DD` of a real date. */
module Dates {
  import opened Wrappers
  import Text

  datatype Date = Date(year: int, month: int, day: int)

  predicate IsLeapYear(y: int) {
    y % 4 == 0 && (y % 100 != 0 || y % 400 == 0)
  }

  function DaysInMonth(y: int, m: int): int {
    if m == 2 then (if IsLeapYear(y) then 29 else 28)
    else if m == 4 || m == 6 || m == 9 || m == 11 then 30
    else 31
  }

  /** Python's `date` range: years 1 to 9999 and a day that exists. */
  predicate ValidDate(d: Date) {
    1 <= d.year <= 9999 && 1 <= d.month <= 12 && 1 <= d.day <= DaysInMonth(d.year, d.month)
  }

  function Digit(c: char): int { c as int - '0' as int }

  /** The positions of `YYYY-MM-DD` that hold digits. */
  predicate IsoShape(s: string) {
    |s| == 10 && s[4] == '-' && s[7] == '-' &&
    forall i :: 0 <= i < 10 && i != 4 && i != 7 ==> Text.IsDigit(s[i])
  }

  function FromIsoFormat(s: string): (r: Option<Date>)
    ensures r.Some? ==> ValidDate(r.value) && IsoShape(s)
  {
    if IsoShape(s) then
      var d := Date(1000 * Digit(s[0]) + 100 * Digit(s[1]) + 10 * Digit(s[2]) + Digit(s[3]),
                    10 * Digit(s[5]) + Digit(s[6]),
                    10 * Digit(s[8]) + Digit(s[9]));
      if ValidDate(d) then Some(d) else None
    else None
  }

  /** `date.isoformat()`: zero-padded `YYYY-MM-DD`. */
  function IsoFormat(d: Date): (s: string)
    requires ValidDate(d)
    ensures IsoShape(s)
  {
    var y, m, dd := d.year, d.month, d.day;
    [Text.DigitChar(y / 1000), Text.DigitChar(y / 100 % 10), Text.DigitChar(y / 10 % 10),
     Text.DigitChar(y % 10), '-', Text.DigitChar(m / 10), Text.DigitChar(m % 10), '-',
     Text.DigitChar(dd / 10), Text.DigitChar(dd % 10)]
  }

  lemma FourDigits(y: int)
    requires 0 <= y < 10000
    ensures 1000 * (y / 1000) + 100 * (y / 100 % 10) + 10 * (y / 10 % 10) + y % 10 == y
  {
    var a, r1 := y / 1000, y % 1000;
    assert y == 1000 * a + r1;
    var b, r2 := r1 / 100, r1 % 100;
    assert y / 100 == 10 * a + b;
    assert y / 100 % 10 == b;
    var c, e := r2 / 10, r2 % 10;
    assert y / 10 == 100 * a + 10 * b + c;
    assert y / 10 % 10 == c;
    assert y % 10 == e;
  }

  /** Writing a date and reading it back gives the same date. */
  lemma IsoRoundTrip(d: Date)
    requires ValidDate(d)
    ensures FromIsoFormat(IsoFormat(d)) == Some(d)
  {
    FourDigits(d.year);
  }

  lemma SplitFour(a: int, b: int, c: int, e: int)
    requires 0 <= a < 10 && 0 <= b < 10 && 0 <= c < 10 && 0 <= e < 10
    ensures var y := 1000 * a + 100 * b + 10 * c + e;
      y / 1000 == a && y / 100 % 10 == b && y / 10 % 10 == c && y % 10 == e
  {
    var y := 1000 * a + 100 * b + 10 * c + e;
    assert y / 1000 == a;
    assert y / 100 == 10 * a + b;
    assert y / 10 == 100 * a + 10 * b + c;
  }

  lemma SplitTwo(a: int, b: int)
    requires 0 <= a < 10 && 0 <= b < 10
    ensures (10 * a + b) / 10 == a && (10 * a + b) % 10 == b
  {
  }

  lemma DigitCharOf(c: char)
    requires Text.IsDigit(c)
    ensures 0 <= Digit(c) < 10 && Text.DigitChar(Digit(c)) == c
  {
  }

  /** The only text read as a given date is its own `YYYY-MM-DD` form. */
  lemma IsoCanonical(s: string)
    requires FromIsoFormat(s).Some?
    ensures IsoFormat(FromIsoFormat(s).value) == s
  {
    assert IsoShape(s);
    forall i | 0 <= i < 10 && i != 4 && i != 7
      ensures 0 <= Digit(s[i]) < 10 && Text.DigitChar(Digit(s[i])) == s[i]
    {
      DigitCharOf(s[i]);
    }
    SplitFour(Digit(s[0]), Digit(s[1]), Digit(s[2]), Digit(s[3]));
    SplitTwo(Digit(s[5]), Digit(s[6]));
    SplitTwo(Digit(s[8]), Digit(s[9]));
    var ss := IsoFormat(FromIsoFormat(s).value);
    assert forall i | 0 <= i < 10 :: ss[i] == s[i];
  }

  /** `date.fromisoformat(v) if v else None`, with a `ValueError` caught as
      `None`: a missing or empty value and a malformed one all give `None`. */
  function ParseLastUpdated(v: Option<string>): (r: Option<Date>)
    ensures (v.None? || v == Some("")) ==> r.None?
    ensures r.Some? ==> ValidDate(r.value) && v.Some? && IsoFormat(r.value) == v.value
  {
    match v
    case None => None
    case Some(s) =>
      if s == "" then None
      else
        var r := FromIsoFormat(s);
        if r.Some? then IsoCanonical(s); r else r
  }
}
