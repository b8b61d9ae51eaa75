/**
 * Calendar dates of the proleptic Gregorian calendar, the day ordinal both
 * Python `date` arithmetic and local-midnight JavaScript timestamps reduce
 * to, weekdays in the two numbering conventions, and the `YYYY-MM-DD` form
 * (ISO 8601 extended calendar date, section 4.1.2.2 of ISO 8601:2004).
 */
module Dates {
  import opened Common
  import opened Strings

  datatype Date = Date(year: int, month: int, day: int)

  predicate IsLeap(y: int)
  {
    y % 4 == 0 && (y % 100 != 0 || y % 400 == 0)
  }

  function DaysInMonth(y: int, m: int): (n: int)
    ensures 28 <= n <= 31
  {
    if m == 2 then (if IsLeap(y) then 29 else 28)
    else if m == 4 || m == 6 || m == 9 || m == 11 then 30
    else 31
  }

  predicate ValidDate(d: Date)
  {
    1 <= d.month <= 12 && 1 <= d.day <= DaysInMonth(d.year, d.month)
  }

  /** Days of the year before the first of month `m`. */
  function DaysBeforeMonth(y: int, m: int): (n: nat)
    decreases m
  {
    if m <= 1 then 0 else DaysBeforeMonth(y, m - 1) + DaysInMonth(y, m - 1)
  }

  /** Leap years in the years before `y` counted from year 1, with floor division. */
  function LeapsBefore(y: int): int
  {
    (y - 1) / 4 - (y - 1) / 100 + (y - 1) / 400
  }

  /** Days from 1970-01-01 to January 1st of `y`. */
  function DaysBeforeYear(y: int): int
  {
    365 * (y - 1970) + LeapsBefore(y) - LeapsBefore(1970)
  }

  /** The day ordinal, 0 on 1970-01-01. */
  function DayNumber(d: Date): int
  {
    DaysBeforeYear(d.year) + DaysBeforeMonth(d.year, d.month) + d.day - 1
  }

  /** The date that follows `d`. */
  function NextDay(d: Date): (r: Date)
    requires ValidDate(d)
    ensures ValidDate(r)
  {
    if d.day < DaysInMonth(d.year, d.month) then Date(d.year, d.month, d.day + 1)
    else if d.month < 12 then Date(d.year, d.month + 1, 1)
    else Date(d.year + 1, 1, 1)
  }

  lemma DaysInYear(y: int)
    ensures DaysBeforeMonth(y, 13) == if IsLeap(y) then 366 else 365
  {
  }

  lemma LeapStep(y: int)
    ensures LeapsBefore(y + 1) == LeapsBefore(y) + (if IsLeap(y) then 1 else 0)
  {
    CuartoPaso(y);
    CentenaPaso(y);
    CuatrocientosPaso(y);
    Divisores(y);
    var p, q, r := y % 4 == 0, y % 100 == 0, y % 400 == 0;
    assert IsLeap(y) == (p && (!q || r));
    assert LeapsBefore(y + 1) == y / 4 - y / 100 + y / 400;
  }

  /** A multiple of 400 is one of 100, and a multiple of 100 one of 4. */
  lemma Divisores(y: int)
    ensures y % 400 == 0 ==> y % 100 == 0
    ensures y % 100 == 0 ==> y % 4 == 0
  {
    if y % 400 == 0 {
      CuatrocientosCentena(y / 400);
    }
    if y % 100 == 0 {
      CentenaCuarto(y / 100);
    }
  }

  lemma CuatrocientosCentena(k: int)
    ensures (400 * k) % 100 == 0
  {
    assert 400 * k == 100 * (4 * k);
  }

  lemma CentenaCuarto(k: int)
    ensures (100 * k) % 4 == 0
  {
    assert 100 * k == 4 * (25 * k);
  }

  lemma CuartoPaso(y: int)
    ensures y / 4 == (if y % 4 == 0 then (y - 1) / 4 + 1 else (y - 1) / 4)
  {
  }

  lemma CentenaPaso(y: int)
    ensures y / 100 == (if y % 100 == 0 then (y - 1) / 100 + 1 else (y - 1) / 100)
  {
  }

  lemma CuatrocientosPaso(y: int)
    ensures y / 400 == (if y % 400 == 0 then (y - 1) / 400 + 1 else (y - 1) / 400)
  {
  }

  lemma YearStep(y: int)
    ensures DaysBeforeYear(y + 1) == DaysBeforeYear(y) + DaysBeforeMonth(y, 13)
  {
    LeapStep(y);
    DaysInYear(y);
  }

  /** Consecutive dates have consecutive ordinals: the ordinal counts days. */
  lemma NextDayNumber(d: Date)
    requires ValidDate(d)
    ensures DayNumber(NextDay(d)) == DayNumber(d) + 1
  {
    if d.day < DaysInMonth(d.year, d.month) {
      assert NextDay(d) == Date(d.year, d.month, d.day + 1);
    } else if d.month < 12 {
      assert NextDay(d) == Date(d.year, d.month + 1, 1);
      MonthStep(d.year, d.month);
    } else {
      assert NextDay(d) == Date(d.year + 1, 1, 1);
      assert d == Date(d.year, 12, 31);
      NewYear(d.year);
    }
  }

  /** December 31st is followed by the next January 1st. */
  lemma NewYear(y: int)
    ensures DayNumber(Date(y + 1, 1, 1)) == DayNumber(Date(y, 12, 31)) + 1
  {
    YearStep(y);
    MonthStep(y, 12);
  }

  lemma MonthStep(y: int, m: int)
    requires 1 <= m
    ensures DaysBeforeMonth(y, m + 1) == DaysBeforeMonth(y, m) + DaysInMonth(y, m)
  {
  }

  lemma {:induction false} DaysBeforeMonthMono(y: int, m: int, m': int)
    requires m <= m'
    ensures DaysBeforeMonth(y, m) <= DaysBeforeMonth(y, m')
    decreases m' - m
  {
    if m < m' {
      DaysBeforeMonthMono(y, m, m' - 1);
    }
  }

  lemma DaysBeforeYearMono(y: int, y': int)
    requires y < y'
    ensures DaysBeforeYear(y) + DaysBeforeMonth(y, 13) <= DaysBeforeYear(y')
  {
    YearStep(y);
    DaysBeforeYearLe(y + 1, y');
  }

  /** Later years start later: each year adds a positive number of days. */
  lemma {:induction false} DaysBeforeYearLe(y: int, y': int)
    requires y <= y'
    ensures DaysBeforeYear(y) <= DaysBeforeYear(y')
    decreases y' - y
  {
    if y < y' {
      LeapStep(y);
      DaysBeforeYearLe(y + 1, y');
    }
  }

  /** Chronological order of dates, i.e. the order Python's `date` comparisons use. */
  predicate DateLt(a: Date, b: Date)
  {
    a.year < b.year || (a.year == b.year && (a.month < b.month || (a.month == b.month && a.day < b.day)))
  }

  /** The ordinal orders valid dates chronologically. */
  lemma DateLtDayNumber(a: Date, b: Date)
    requires ValidDate(a) && ValidDate(b)
    ensures DateLt(a, b) <==> DayNumber(a) < DayNumber(b)
    ensures a == b <==> DayNumber(a) == DayNumber(b)
  {
    if DateLt(a, b) {
      DateLtOrdinal(a, b);
    } else if DateLt(b, a) {
      DateLtOrdinal(b, a);
    }
  }

  lemma DateLtOrdinal(a: Date, b: Date)
    requires ValidDate(a) && ValidDate(b) && DateLt(a, b)
    ensures DayNumber(a) < DayNumber(b)
  {
    if a.year < b.year {
      DayWithinYear(a);
      DaysBeforeYearMono(a.year, b.year);
    } else if a.month < b.month {
      DaysBeforeMonthMono(a.year, a.month + 1, b.month);
    }
  }

  /** A valid date lies within its year. */
  lemma DayWithinYear(d: Date)
    requires ValidDate(d)
    ensures DaysBeforeMonth(d.year, d.month) + d.day <= DaysBeforeMonth(d.year, 13)
  {
    DaysBeforeMonthMono(d.year, d.month + 1, 13);
  }

  /** JavaScript `getDay()`: 0 is Sunday; 1970-01-01 was a Thursday. */
  function JsWeekday(d: Date): (w: int)
    ensures 0 <= w < 7
  {
    (DayNumber(d) + 4) % 7
  }

  /** Python `weekday()`: 0 is Monday, 6 is Sunday. */
  function PyWeekday(d: Date): (w: int)
    ensures 0 <= w < 7
  {
    (DayNumber(d) + 3) % 7
  }

  /** The two conventions name the same day: Sunday is 0 for one and 6 for the other. */
  lemma WeekdayConventions(d: Date)
    ensures JsWeekday(d) == (PyWeekday(d) + 1) % 7
    ensures JsWeekday(d) == 0 <==> PyWeekday(d) == 6
  {
  }

  /** A week later is the same weekday. */
  lemma WeekdayPeriodic(a: Date, b: Date)
    requires DayNumber(b) == DayNumber(a) + 7
    ensures JsWeekday(a) == JsWeekday(b) && PyWeekday(a) == PyWeekday(b)
  {
    var n := DayNumber(a);
    SemanaDespues(n + 4);
    SemanaDespues(n + 3);
  }

  lemma SemanaDespues(x: int)
    ensures (x + 7) % 7 == x % 7
  {
  }

  /**
   * The calendar date `new Date(y, m - 1, d)` denotes in JavaScript: years 0
   * to 99 are read as 1900 to 1999.
   */
  function JsLocalDate(y: int, m: int, d: int): (r: Date)
    ensures 0 <= y <= 99 ==> r.year == 1900 + y
    ensures !(0 <= y <= 99) ==> r.year == y
    ensures r.month == m && r.day == d
  {
    Date(if 0 <= y <= 99 then 1900 + y else y, m, d)
  }

  /** `YYYY-MM-DD` with a zero-padded month and day (and year, to four digits). */
  function FormatYmd(d: Date): string
    requires d.year >= 0 && 1 <= d.month && 1 <= d.day
  {
    PadStart(NatToString(d.year), 4, '0') + "-" +
    PadStart(NatToString(d.month), 2, '0') + "-" +
    PadStart(NatToString(d.day), 2, '0')
  }

  /** A field of a date string: decimal digits only (JS `Number(part)`, Python `%Y`/`%m`/`%d`). */
  function ParseField(s: string): Option<nat>
  {
    if s != [] && AllDigits(s) then Some(ParseNat(s)) else None
  }

  /**
   * `const [y, m, d] = s.split('-').map(Number)`: the first three pieces,
   * each a digit string; `None` stands for the NaN fields of an Invalid Date.
   */
  function ParseYmd(s: string): (r: Option<Date>)
    ensures r.Some? ==> r.value.year >= 0 && r.value.month >= 0 && r.value.day >= 0
  {
    var parts := Split(s, '-');
    if |parts| < 3 then None
    else
      var y, m, d := ParseField(parts[0]), ParseField(parts[1]), ParseField(parts[2]);
      if y.Some? && m.Some? && d.Some? then Some(Date(y.value, m.value, d.value)) else None
  }

  lemma PaddedField(n: nat, w: nat)
    ensures ParseField(PadStart(NatToString(n), w, '0')) == Some(n)
    ensures '-' !in PadStart(NatToString(n), w, '0')
  {
    ParsePadded(n, w);
    DigitsExclude(PadStart(NatToString(n), w, '0'), '-');
  }

  /** Reading back a formatted date gives the date: the key format loses nothing. */
  lemma ParseFormatYmd(d: Date)
    requires d.year >= 0 && 1 <= d.month && 1 <= d.day
    ensures ParseYmd(FormatYmd(d)) == Some(d)
  {
    var a := PadStart(NatToString(d.year), 4, '0');
    var b := PadStart(NatToString(d.month), 2, '0');
    var c := PadStart(NatToString(d.day), 2, '0');
    PaddedField(d.year, 4);
    PaddedField(d.month, 2);
    PaddedField(d.day, 2);
    assert FormatYmd(d) == a + ['-'] + b + ['-'] + c;
    SplitThree(a, b, c, '-');
  }

  /** Two valid dates share a key only if they are the same date. */
  lemma FormatYmdInjective(a: Date, b: Date)
    requires a.year >= 0 && 1 <= a.month && 1 <= a.day
    requires b.year >= 0 && 1 <= b.month && 1 <= b.day
    ensures FormatYmd(a) == FormatYmd(b) <==> a == b
  {
    ParseFormatYmd(a);
    ParseFormatYmd(b);
  }
}
