/**
 * Calendar dates as the core sees them: datetime.strptime(s, "%Y-%m-%d") as the
 * validator of user-typed and provider dates, date.isoformat() as its inverse,
 * and date.toordinal() for the day arithmetic of the date-flex window.
 */
module Dates {
  import opened Wrappers
  import opened Text

  datatype Date = Date(year: int, month: int, day: int)

  predicate IsLeap(y: int) { y % 4 == 0 && (y % 100 != 0 || y % 400 == 0) }

  function DaysInMonth(y: int, m: int): (n: int)
    requires 1 <= m <= 12
    ensures 28 <= n <= 31
  {
    if m == 2 then (if IsLeap(y) then 29 else 28)
    else if m == 4 || m == 6 || m == 9 || m == 11 then 30
    else 31
  }

  /** The dates Python's datetime.date can hold (MINYEAR = 1, MAXYEAR = 9999). */
  predicate ValidDate(d: Date) {
    1 <= d.year <= 9999 && 1 <= d.month <= 12 && 1 <= d.day <= DaysInMonth(d.year, d.month)
  }

  // ------------------------------------------------------------ strptime("%Y-%m-%d")

  /**
   * The %m directive of CPython's _strptime, the regular expression 1[0-2]|0[1-9]|[1-9]
   * tried in that order at position i: the month and the position after it.
   */
  function MonthToken(s: string, i: nat): (r: Option<(int, nat)>)
    ensures r.Some? ==> 1 <= r.value.0 <= 12 && i < r.value.1 <= |s|
  {
    if i + 1 < |s| && s[i] == '1' && '0' <= s[i + 1] <= '2' then Some((10 + DigitValue(s[i + 1]), i + 2))
    else if i + 1 < |s| && s[i] == '0' && '1' <= s[i + 1] <= '9' then Some((DigitValue(s[i + 1]), i + 2))
    else if i < |s| && '1' <= s[i] <= '9' then Some((DigitValue(s[i]), i + 1))
    else None
  }

  /**
   * The %d directive, the regular expression 3[01]|[12]\d|0[1-9]|[1-9]| [1-9] tried in
   * that order at position i. The format ends after it, so the first alternative that
   * matches is the one the match keeps.
   */
  function DayToken(s: string, i: nat): (r: Option<(int, nat)>)
    ensures r.Some? ==> 1 <= r.value.0 <= 31 && i < r.value.1 <= |s|
  {
    if i + 1 < |s| && s[i] == '3' && '0' <= s[i + 1] <= '1' then Some((30 + DigitValue(s[i + 1]), i + 2))
    else if i + 1 < |s| && '1' <= s[i] <= '2' && IsDigit(s[i + 1]) then Some((10 * DigitValue(s[i]) + DigitValue(s[i + 1]), i + 2))
    else if i + 1 < |s| && s[i] == '0' && '1' <= s[i + 1] <= '9' then Some((DigitValue(s[i + 1]), i + 2))
    else if i < |s| && '1' <= s[i] <= '9' then Some((DigitValue(s[i]), i + 1))
    else if i + 1 < |s| && s[i] == ' ' && '1' <= s[i + 1] <= '9' then Some((DigitValue(s[i + 1]), i + 2))
    else None
  }

  /**
   * datetime.strptime(s, "%Y-%m-%d"): four digits, '-', a %m token, '-', a %d token and
   * nothing after it ("unconverted data remains" otherwise); then the date must exist
   * (year 0 and 30 February raise). None stands for the ValueError. Digits are ASCII
   * here, whereas CPython's \d also matches other Unicode decimal digits.
   */
  function ParseDate(s: string): (r: Option<Date>)
    ensures r.Some? ==> ValidDate(r.value)
  {
    if |s| < 5 || !IsDigits(s[..4]) || s[4] != '-' then None
    else match MonthToken(s, 5)
      case None => None
      case Some((m, j)) =>
        if j >= |s| || s[j] != '-' then None
        else match DayToken(s, j + 1)
          case None => None
          case Some((d, k)) =>
            var y := DigitsValue(s[..4]);
            DigitsValueBound(s[..4]);
            if k != |s| || y < 1 || d > DaysInMonth(y, m) then None
            else Some(Date(y, m, d))
  }

  // ------------------------------------------------------------ isoformat

  function Digits2(n: int): (r: string)
    requires 0 <= n < 100
    ensures |r| == 2 && IsDigits(r)
  {
    [DigitChar(n / 10), DigitChar(n % 10)]
  }

  function Digits4(n: int): (r: string)
    requires 0 <= n < 10000
    ensures |r| == 4 && IsDigits(r)
  {
    Digits2(n / 100) + Digits2(n % 100)
  }

  /** date.isoformat(): "%04d-%02d-%02d". */
  function IsoFormat(d: Date): (r: string)
    requires ValidDate(d)
    ensures |r| == 10
  {
    Digits4(d.year) + "-" + Digits2(d.month) + "-" + Digits2(d.day)
  }

  lemma Digits2Value(n: int)
    requires 0 <= n < 100
    ensures DigitsValue(Digits2(n)) == n
  {
    var s := Digits2(n);
    assert s[..1] == [DigitChar(n / 10)];
    assert s[..1][..0] == [];
    assert DigitValue(DigitChar(n / 10)) == n / 10 && DigitValue(DigitChar(n % 10)) == n % 10;
    assert DigitsValue(s[..1]) == n / 10;
  }

  lemma Digits4Value(n: int)
    requires 0 <= n < 10000
    ensures DigitsValue(Digits4(n)) == n
  {
    DigitsValueAppend(Digits2(n / 100), Digits2(n % 100));
    Digits2Value(n / 100);
    Digits2Value(n % 100);
  }

  /** strptime accepts what isoformat prints, and gives back the same date. */
  lemma ParseIsoFormat(d: Date)
    requires ValidDate(d)
    ensures ParseDate(IsoFormat(d)) == Some(d)
  {
    var s := IsoFormat(d);
    assert s[..4] == Digits4(d.year);
    Digits4Value(d.year);
    assert s[4] == '-' && s[7] == '-';
    assert s[5] == DigitChar(d.month / 10) && s[6] == DigitChar(d.month % 10);
    assert s[8] == DigitChar(d.day / 10) && s[9] == DigitChar(d.day % 10);
    assert MonthToken(s, 5) == Some((d.month, 7));
    assert DayToken(s, 8) == Some((d.day, 10));
  }

  // ------------------------------------------------------------ toordinal

  function DaysBeforeYear(y: int): int
    requires y >= 1
  {
    (y - 1) * 365 + (y - 1) / 4 - (y - 1) / 100 + (y - 1) / 400
  }

  function DaysBeforeMonth(y: int, m: int): int
    requires 1 <= m <= 12
  {
    if m == 1 then 0 else DaysBeforeMonth(y, m - 1) + DaysInMonth(y, m - 1)
  }

  /** date.toordinal(): 1 January of year 1 is day 1. */
  function Ordinal(d: Date): int
    requires ValidDate(d)
  {
    DaysBeforeYear(d.year) + DaysBeforeMonth(d.year, d.month) + d.day
  }

  /** A year has 366 days when it is a leap year and 365 otherwise. */
  lemma YearLength(y: int)
    requires y >= 1
    ensures DaysBeforeYear(y + 1) == DaysBeforeYear(y) + (if IsLeap(y) then 366 else 365)
  {
    var a, b, c := y / 4 - (y - 1) / 4, y / 100 - (y - 1) / 100, y / 400 - (y - 1) / 400;
    LeapSteps(y);
    assert DaysBeforeYear(y + 1) == DaysBeforeYear(y) + 365 + a - b + c;
  }

  /** Passing from y - 1 to y adds one to y / 4, y / 100 or y / 400 exactly when y is a multiple. */
  lemma LeapSteps(y: int)
    ensures (if IsLeap(y) then 1 else 0) == (y / 4 - (y - 1) / 4) - (y / 100 - (y - 1) / 100) + (y / 400 - (y - 1) / 400)
  {
    DivStep4(y);
    DivStep100(y);
    DivStep400(y);
    if y % 400 == 0 {
      assert y % 100 == 0 && y % 4 == 0;
    } else if y % 100 == 0 {
      assert y % 4 == 0;
    }
  }

  lemma DivStep4(y: int)
    ensures y / 4 - (y - 1) / 4 == if y % 4 == 0 then 1 else 0
  {}

  lemma DivStep100(y: int)
    ensures y / 100 - (y - 1) / 100 == if y % 100 == 0 then 1 else 0
  {}

  lemma DivStep400(y: int)
    ensures y / 400 - (y - 1) / 400 == if y % 400 == 0 then 1 else 0
  {}

  lemma DaysBeforeDecember(y: int)
    ensures DaysBeforeMonth(y, 12) + 31 == if IsLeap(y) then 366 else 365
  {
    var feb := if IsLeap(y) then 29 else 28;
    assert DaysBeforeMonth(y, 2) == 31;
    assert DaysBeforeMonth(y, 3) == 31 + feb;
    assert DaysBeforeMonth(y, 4) == 62 + feb;
    assert DaysBeforeMonth(y, 5) == 92 + feb;
    assert DaysBeforeMonth(y, 6) == 123 + feb;
    assert DaysBeforeMonth(y, 7) == 153 + feb;
    assert DaysBeforeMonth(y, 8) == 184 + feb;
    assert DaysBeforeMonth(y, 9) == 215 + feb;
    assert DaysBeforeMonth(y, 10) == 245 + feb;
    assert DaysBeforeMonth(y, 11) == 276 + feb;
  }

  /** date + timedelta(days=1); the day after 31 December 9999 does not exist. */
  function NextDay(d: Date): (r: Date)
    requires ValidDate(d) && d != Date(9999, 12, 31)
    ensures ValidDate(r) && Ordinal(r) == Ordinal(d) + 1
  {
    if d.day < DaysInMonth(d.year, d.month) then Date(d.year, d.month, d.day + 1)
    else if d.month < 12 then Date(d.year, d.month + 1, 1)
    else
      YearLength(d.year);
      DaysBeforeDecember(d.year);
      Date(d.year + 1, 1, 1)
  }
}
