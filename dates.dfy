/**
 * Calendar dates as `datetime` handles them in the calendar code: the
 * proleptic Gregorian calendar of years 1 to 9999, the ISO `YYYY-MM-DD`
 * text form, and the step to the following day that `+ timedelta(days=1)`
 * performs.
 */
module Dates {
  import opened Wrappers
  import opened Text

  datatype Date = Date(year: nat, month: nat, day: nat)

  /** `datetime.MINYEAR` and `datetime.MAXYEAR`. */
  const MinYear: nat := 1
  const MaxYear: nat := 9999

  predicate IsLeapYear(y: int) { y % 4 == 0 && (y % 100 != 0 || y % 400 == 0) }

  function DaysInMonth(y: int, m: int): (n: int)
    requires 1 <= m <= 12
    ensures 28 <= n <= 31
    ensures n == 29 <==> m == 2 && IsLeapYear(y)
  {
    if m == 2 then (if IsLeapYear(y) then 29 else 28)
    else if m == 4 || m == 6 || m == 9 || m == 11 then 30
    else 31
  }

  function DaysInYear(y: int): int
  {
    if IsLeapYear(y) then 366 else 365
  }

  /** A date `datetime` can represent. */
  predicate Valid(d: Date)
  {
    MinYear <= d.year <= MaxYear && 1 <= d.month <= 12 && 1 <= d.day <= DaysInMonth(d.year, d.month)
  }

  /** Days in the years before year `y`: 365 per year plus one per leap year. */
  function DaysBeforeYear(y: int): int
    requires y >= 1
  {
    var p := y - 1;
    365 * p + p / 4 - p / 100 + p / 400
  }

  /** Days in the months of year `y` before month `m`. */
  function DaysBeforeMonth(y: int, m: int): (n: int)
    requires 1 <= m <= 12
    ensures 0 <= n <= 31 * (m - 1)
  {
    if m == 1 then 0 else DaysBeforeMonth(y, m - 1) + DaysInMonth(y, m - 1)
  }

  /** `date.toordinal()`: 1 for 0001-01-01, one more for every later day. */
  function DayNumber(d: Date): (n: int)
    requires Valid(d)
    ensures n >= 1
  {
    DaysBeforeYear(d.year) + DaysBeforeMonth(d.year, d.month) + d.day
  }

  /** The months of a year add up to its length. */
  lemma MonthsFillYear(y: int)
    ensures DaysBeforeMonth(y, 12) + DaysInMonth(y, 12) == DaysInYear(y)
  {
    var feb := DaysInMonth(y, 2);
    assert DaysBeforeMonth(y, 3) == 31 + feb;
    assert DaysBeforeMonth(y, 4) == 62 + feb;
    assert DaysBeforeMonth(y, 5) == 92 + feb;
    assert DaysBeforeMonth(y, 6) == 123 + feb;
    assert DaysBeforeMonth(y, 7) == 153 + feb;
    assert DaysBeforeMonth(y, 8) == 184 + feb;
    assert DaysBeforeMonth(y, 9) == 215 + feb;
    assert DaysBeforeMonth(y, 10) == 245 + feb;
    assert DaysBeforeMonth(y, 11) == 276 + feb;
    assert DaysBeforeMonth(y, 12) == 306 + feb;
  }

  /** Each year starts where the previous one ends. */
  lemma YearFollows(y: int)
    requires y >= 1
    ensures DaysBeforeYear(y + 1) == DaysBeforeYear(y) + DaysInYear(y)
  {
    var p := y - 1;
    assert (p + 1) / 4 == p / 4 + (if y % 4 == 0 then 1 else 0);
    assert (p + 1) / 100 == p / 100 + (if y % 100 == 0 then 1 else 0);
    assert (p + 1) / 400 == p / 400 + (if y % 400 == 0 then 1 else 0);
  }

  /** `d + timedelta(days=1)`; `None` where Python raises `OverflowError`, after 9999-12-31. */
  function NextDay(d: Date): (r: Option<Date>)
    requires Valid(d)
    ensures r.Some? ==> Valid(r.value)
    ensures r.None? <==> d == Date(MaxYear, 12, 31)
  {
    if d.day < DaysInMonth(d.year, d.month) then Some(d.(day := d.day + 1))
    else if d.month < 12 then Some(Date(d.year, d.month + 1, 1))
    else if d.year < MaxYear then Some(Date(d.year + 1, 1, 1))
    else None
  }

  /** The next day is exactly one day later, with month and year rollover. */
  lemma NextDayIsOneLater(d: Date)
    requires Valid(d) && NextDay(d).Some?
    ensures DayNumber(NextDay(d).value) == DayNumber(d) + 1
  {
    if d.day == DaysInMonth(d.year, d.month) && d.month == 12 {
      MonthsFillYear(d.year);
      YearFollows(d.year);
    }
  }

  /** Calendar order: year first, then month, then day. */
  predicate NotAfter(a: Date, b: Date)
  {
    a.year < b.year || (a.year == b.year && (a.month < b.month || (a.month == b.month && a.day <= b.day)))
  }

  lemma {:induction false} MonthsBeforeGrow(y: int, m: int, k: int)
    requires 1 <= m <= k <= 12
    ensures DaysBeforeMonth(y, m) + (if m < k then DaysInMonth(y, m) else 0) <= DaysBeforeMonth(y, k)
    decreases k - m
  {
    if m < k {
      MonthsBeforeGrow(y, m + 1, k);
    }
  }

  lemma YearsBeforeGrow(y: int, z: int)
    requires 1 <= y < z
    ensures DaysBeforeYear(y) + DaysInYear(y) <= DaysBeforeYear(z)
  {
    YearFollows(y);
    var p, q := y, z - 1;
    assert p / 4 <= q / 4 && p / 400 <= q / 400;
    assert q / 100 - p / 100 <= (q - p) / 100 + 1;
  }

  /** Calendar order and day numbers agree. */
  lemma DayNumberMonotone(a: Date, b: Date)
    requires Valid(a) && Valid(b)
    ensures NotAfter(a, b) <==> DayNumber(a) <= DayNumber(b)
  {
    if a.year != b.year {
      var (lo, hi) := if a.year < b.year then (a, b) else (b, a);
      YearsBeforeGrow(lo.year, hi.year);
      MonthsBeforeGrow(lo.year, lo.month, 12);
      MonthsFillYear(lo.year);
    } else if a.month != b.month {
      var (lo, hi) := if a.month < b.month then (a, b) else (b, a);
      MonthsBeforeGrow(lo.year, lo.month, hi.month);
    }
  }

  /** `date.max.toordinal()`: the day number of 9999-12-31, the last day `datetime` represents. */
  const LastDay: int := 3652059

  lemma LastDayIsMaxDate()
    ensures Valid(Date(MaxYear, 12, 31)) && DayNumber(Date(MaxYear, 12, 31)) == LastDay
  {
  }

  /** Every representable date has a day number from 1 to `LastDay`. */
  lemma DayNumberInRange(d: Date)
    requires Valid(d)
    ensures 1 <= DayNumber(d) <= LastDay
  {
    LastDayIsMaxDate();
    DayNumberMonotone(d, Date(MaxYear, 12, 31));
  }

  // ---------------------------------------------------------------------
  // ISO text
  // ---------------------------------------------------------------------

  /** `d.strftime('%Y-%m-%d')`, the year written with four digits. */
  function FormatIso(d: Date): (r: string)
    ensures d.year < 10000 && d.month < 100 && d.day < 100 ==> |r| == 10 && r[4] == '-' && r[7] == '-'
  {
    ZeroPad(d.year, 4) + "-" + ZeroPad(d.month, 2) + "-" + ZeroPad(d.day, 2)
  }

  /** `date.fromisoformat(s)` for the `YYYY-MM-DD` form; `None` where Python raises `ValueError`. */
  function ParseIso(s: string): (r: Option<Date>)
    ensures r.Some? ==> Valid(r.value)
  {
    if |s| == 10 && s[4] == '-' && s[7] == '-' && AllDigits(s[0..4]) && AllDigits(s[5..7]) && AllDigits(s[8..10]) then
      var d := Date(DigitsValue(s[0..4]), DigitsValue(s[5..7]), DigitsValue(s[8..10]));
      if Valid(d) then Some(d) else None
    else None
  }

  /** Formatting a representable date and parsing it back gives the date. */
  lemma ParseFormatRoundTrip(d: Date)
    requires Valid(d)
    ensures ParseIso(FormatIso(d)) == Some(d)
  {
    var s := FormatIso(d);
    var y, m, dd := ZeroPad(d.year, 4), ZeroPad(d.month, 2), ZeroPad(d.day, 2);
    assert s[0..4] == y && s[5..7] == m && s[8..10] == dd;
    ZeroPadValue(d.year, 4);
    ZeroPadValue(d.month, 2);
    ZeroPadValue(d.day, 2);
  }

  /** Parsing accepts only the canonical spelling: formatting the parsed date gives back the text. */
  lemma FormatParseRoundTrip(s: string)
    requires ParseIso(s).Some?
    ensures FormatIso(ParseIso(s).value) == s
  {
    var d := ParseIso(s).value;
    ZeroPadOfDigits(s[0..4]);
    ZeroPadOfDigits(s[5..7]);
    ZeroPadOfDigits(s[8..10]);
    assert s == s[0..4] + "-" + s[5..7] + "-" + s[8..10];
  }

  // ---------------------------------------------------------------------
  // Named dates
  // ---------------------------------------------------------------------

  lemma Iso20260115()
    ensures FormatIso(Date(2026, 1, 15)) == "2026-01-15" && ParseIso("2026-01-15") == Some(Date(2026, 1, 15))
  {
    assert FormatIso(Date(2026, 1, 15)) == "2026-01-15";
    ParseFormatRoundTrip(Date(2026, 1, 15));
  }

  lemma Iso20260116()
    ensures FormatIso(Date(2026, 1, 16)) == "2026-01-16" && ParseIso("2026-01-16") == Some(Date(2026, 1, 16))
  {
    assert FormatIso(Date(2026, 1, 16)) == "2026-01-16";
    ParseFormatRoundTrip(Date(2026, 1, 16));
  }

  lemma Iso20260122()
    ensures FormatIso(Date(2026, 1, 22)) == "2026-01-22" && ParseIso("2026-01-22") == Some(Date(2026, 1, 22))
  {
    assert FormatIso(Date(2026, 1, 22)) == "2026-01-22";
    ParseFormatRoundTrip(Date(2026, 1, 22));
  }

  lemma Iso20260221()
    ensures FormatIso(Date(2026, 2, 21)) == "2026-02-21" && ParseIso("2026-02-21") == Some(Date(2026, 2, 21))
  {
    assert FormatIso(Date(2026, 2, 21)) == "2026-02-21";
    ParseFormatRoundTrip(Date(2026, 2, 21));
  }

  lemma Iso20260228()
    ensures FormatIso(Date(2026, 2, 28)) == "2026-02-28" && ParseIso("2026-02-28") == Some(Date(2026, 2, 28))
  {
    assert FormatIso(Date(2026, 2, 28)) == "2026-02-28";
    ParseFormatRoundTrip(Date(2026, 2, 28));
  }

  lemma Iso20260301()
    ensures FormatIso(Date(2026, 3, 1)) == "2026-03-01" && ParseIso("2026-03-01") == Some(Date(2026, 3, 1))
  {
    assert FormatIso(Date(2026, 3, 1)) == "2026-03-01";
    ParseFormatRoundTrip(Date(2026, 3, 1));
  }

  lemma Iso20260314()
    ensures FormatIso(Date(2026, 3, 14)) == "2026-03-14" && ParseIso("2026-03-14") == Some(Date(2026, 3, 14))
  {
    assert FormatIso(Date(2026, 3, 14)) == "2026-03-14";
    ParseFormatRoundTrip(Date(2026, 3, 14));
  }

  lemma Iso20260404()
    ensures FormatIso(Date(2026, 4, 4)) == "2026-04-04" && ParseIso("2026-04-04") == Some(Date(2026, 4, 4))
  {
    assert FormatIso(Date(2026, 4, 4)) == "2026-04-04";
    ParseFormatRoundTrip(Date(2026, 4, 4));
  }

  lemma Iso20260418()
    ensures FormatIso(Date(2026, 4, 18)) == "2026-04-18" && ParseIso("2026-04-18") == Some(Date(2026, 4, 18))
  {
    assert FormatIso(Date(2026, 4, 18)) == "2026-04-18";
    ParseFormatRoundTrip(Date(2026, 4, 18));
  }

  lemma Iso20261231()
    ensures FormatIso(Date(2026, 12, 31)) == "2026-12-31" && ParseIso("2026-12-31") == Some(Date(2026, 12, 31))
  {
    assert FormatIso(Date(2026, 12, 31)) == "2026-12-31";
    ParseFormatRoundTrip(Date(2026, 12, 31));
  }

  lemma Iso20270101()
    ensures FormatIso(Date(2027, 1, 1)) == "2027-01-01" && ParseIso("2027-01-01") == Some(Date(2027, 1, 1))
  {
    assert FormatIso(Date(2027, 1, 1)) == "2027-01-01";
    ParseFormatRoundTrip(Date(2027, 1, 1));
  }

  lemma Iso20280228()
    ensures FormatIso(Date(2028, 2, 28)) == "2028-02-28" && ParseIso("2028-02-28") == Some(Date(2028, 2, 28))
  {
    assert FormatIso(Date(2028, 2, 28)) == "2028-02-28";
    ParseFormatRoundTrip(Date(2028, 2, 28));
  }

  lemma Iso20280229()
    ensures FormatIso(Date(2028, 2, 29)) == "2028-02-29" && ParseIso("2028-02-29") == Some(Date(2028, 2, 29))
  {
    assert FormatIso(Date(2028, 2, 29)) == "2028-02-29";
    ParseFormatRoundTrip(Date(2028, 2, 29));
  }
}
