/** Python `datetime.date` values: the proleptic Gregorian calendar over
    years 1 to 9999, day ordinals, day shifting (`date + timedelta`) and the
    `'%Y-%m'` month key. */
module Dates {
  import opened Outcomes
  import opened Text

  datatype Date = Date(year: int, month: int, day: int)

  const MinYear: int := 1
  const MaxYear: int := 9999

  predicate IsLeapYear(y: int) {
    y % 4 == 0 && (y % 100 != 0 || y % 400 == 0)
  }

  function DaysInMonth(y: int, m: int): int {
    if m == 2 then (if IsLeapYear(y) then 29 else 28)
    else if m == 4 || m == 6 || m == 9 || m == 11 then 30
    else 31
  }

  function DaysInYear(y: int): int {
    if IsLeapYear(y) then 366 else 365
  }

  /** What `datetime.date(year, month, day)` accepts. */
  predicate ValidDate(d: Date) {
    && MinYear <= d.year <= MaxYear
    && 1 <= d.month <= 12
    && 1 <= d.day <= DaysInMonth(d.year, d.month)
  }

  /** A value of Python's `date` type. */
  type CalendarDate = d: Date | ValidDate(d) witness Date(1970, 1, 1)

  const FirstDate: CalendarDate := Date(MinYear, 1, 1)
  const LastDate: CalendarDate := Date(MaxYear, 12, 31)

  /** `a <= b` on dates: chronological, i.e. lexicographic on (year, month, day). */
  predicate OnOrBefore(a: Date, b: Date) {
    || a.year < b.year
    || (a.year == b.year && a.month < b.month)
    || (a.year == b.year && a.month == b.month && a.day <= b.day)
  }

  /** Days in the years before `y` (years from 1 on), in the closed form
      of the `datetime` module: a leap day every fourth year except
      centuries not divisible by 400. */
  function DaysBeforeYear(y: int): int
    requires y >= MinYear
  {
    var p := y - 1;
    365 * p + p / 4 - p / 100 + p / 400
  }

  /** The closed form counts year by year. */
  lemma DaysBeforeNextYear(y: int)
    requires y >= MinYear
    ensures DaysBeforeYear(y + 1) == DaysBeforeYear(y) + DaysInYear(y)
  {
    LeapStep4(y);
    LeapStep100(y);
    LeapStep400(y);
  }

  /** The leap-rule quotients grow by one exactly at a multiple. */
  lemma LeapStep4(y: int)
    requires y >= MinYear
    ensures y / 4 == (y - 1) / 4 + (if y % 4 == 0 then 1 else 0)
  {
  }

  lemma LeapStep100(y: int)
    requires y >= MinYear
    ensures y / 100 == (y - 1) / 100 + (if y % 100 == 0 then 1 else 0)
  {
  }

  lemma LeapStep400(y: int)
    requires y >= MinYear
    ensures y / 400 == (y - 1) / 400 + (if y % 400 == 0 then 1 else 0)
  {
  }

  /** Days in year `y` before the first of month `m`. */
  function DaysBeforeMonth(y: int, m: int): int
    requires 1 <= m <= 13
    decreases m
  {
    if m == 1 then 0 else DaysBeforeMonth(y, m - 1) + DaysInMonth(y, m - 1)
  }

  /** `date.toordinal()`: 1 for 0001-01-01, counting days from there. */
  function Ordinal(d: Date): int
    requires d.year >= MinYear && 1 <= d.month <= 12
  {
    DaysBeforeYear(d.year) + DaysBeforeMonth(d.year, d.month) + d.day
  }

  lemma FullYear(y: int)
    ensures DaysBeforeMonth(y, 13) == DaysInYear(y)
    ensures DaysBeforeMonth(y, 12) == DaysInYear(y) - 31
  {
    assert DaysBeforeMonth(y, 2) == 31;
    assert DaysBeforeMonth(y, 3) == 31 + DaysInMonth(y, 2);
    assert DaysBeforeMonth(y, 4) == DaysBeforeMonth(y, 3) + 31;
    assert DaysBeforeMonth(y, 5) == DaysBeforeMonth(y, 3) + 61;
    assert DaysBeforeMonth(y, 6) == DaysBeforeMonth(y, 3) + 92;
    assert DaysBeforeMonth(y, 7) == DaysBeforeMonth(y, 3) + 122;
    assert DaysBeforeMonth(y, 8) == DaysBeforeMonth(y, 3) + 153;
    assert DaysBeforeMonth(y, 9) == DaysBeforeMonth(y, 3) + 184;
    assert DaysBeforeMonth(y, 10) == DaysBeforeMonth(y, 3) + 214;
    assert DaysBeforeMonth(y, 11) == DaysBeforeMonth(y, 3) + 245;
    assert DaysBeforeMonth(y, 12) == DaysBeforeMonth(y, 3) + 275;
  }

  lemma {:induction false} DaysBeforeMonthGrows(y: int, m: int, m': int)
    requires 1 <= m <= m' <= 13
    ensures DaysBeforeMonth(y, m) + (if m < m' then DaysInMonth(y, m) else 0) <= DaysBeforeMonth(y, m')
    decreases m' - m
  {
    if m < m' - 1 {
      DaysBeforeMonthGrows(y, m, m' - 1);
    }
  }

  lemma {:induction false} DaysBeforeYearGrows(y: int, y': int)
    requires MinYear <= y <= y'
    ensures DaysBeforeYear(y) + (if y < y' then DaysInYear(y) else 0) <= DaysBeforeYear(y')
    decreases y' - y
  {
    if y < y' {
      DaysBeforeNextYear(y' - 1);
      if y < y' - 1 {
        DaysBeforeYearGrows(y, y' - 1);
        DaysBeforeNextYear(y);
      }
    }
  }

  /** A valid date falls inside its own year: its ordinal is at most the
      days before the next year. */
  lemma WithinYear(d: CalendarDate)
    ensures DaysBeforeYear(d.year) + 1 <= Ordinal(d) <= DaysBeforeYear(d.year) + DaysInYear(d.year)
  {
    DaysBeforeMonthGrows(d.year, d.month, 13);
    FullYear(d.year);
  }

  lemma StrictlyBefore(a: CalendarDate, b: CalendarDate)
    requires OnOrBefore(a, b) && a != b
    ensures Ordinal(a) < Ordinal(b)
  {
    if a.year < b.year {
      WithinYear(a);
      WithinYear(b);
      DaysBeforeYearGrows(a.year, b.year);
    } else if a.month < b.month {
      DaysBeforeMonthGrows(a.year, a.month, b.month);
    }
  }

  /** Chronological order on dates is the order of their ordinals. */
  lemma OrdinalOrder(a: CalendarDate, b: CalendarDate)
    ensures OnOrBefore(a, b) <==> Ordinal(a) <= Ordinal(b)
    ensures a == b <==> Ordinal(a) == Ordinal(b)
  {
    if a != b {
      if OnOrBefore(a, b) {
        StrictlyBefore(a, b);
      } else {
        StrictlyBefore(b, a);
      }
    }
  }

  /** Every valid date lies between `FirstDate` and `LastDate`. */
  lemma OrdinalRange(d: CalendarDate)
    ensures 1 <= Ordinal(d) <= Ordinal(LastDate)
  {
    OrdinalOrder(FirstDate, d);
    OrdinalOrder(d, LastDate);
  }

  /** The day after `d`; the year may run past `MaxYear`. */
  function NextDay(d: CalendarDate): (r: Date)
    ensures r.year >= MinYear && 1 <= r.month <= 12
    ensures Ordinal(r) == Ordinal(d) + 1
    ensures d != LastDate ==> ValidDate(r)
  {
    if d.day < DaysInMonth(d.year, d.month) then Date(d.year, d.month, d.day + 1)
    else if d.month < 12 then Date(d.year, d.month + 1, 1)
    else FullYear(d.year); DaysBeforeNextYear(d.year); Date(d.year + 1, 1, 1)
  }

  /** The day before `d`; `FirstDate` has none. */
  function PrevDay(d: CalendarDate): (r: CalendarDate)
    requires d != FirstDate
    ensures Ordinal(r) == Ordinal(d) - 1
  {
    if d.day > 1 then Date(d.year, d.month, d.day - 1)
    else if d.month > 1 then Date(d.year, d.month - 1, DaysInMonth(d.year, d.month - 1))
    else FullYear(d.year - 1); DaysBeforeNextYear(d.year - 1); Date(d.year - 1, 12, 31)
  }

  /** `d + timedelta(days=n)`: the date `n` days later (earlier for negative
      `n`), or `OverflowError` when that leaves years 1 to 9999. */
  function ShiftDays(d: CalendarDate, n: int): (r: Result<CalendarDate>)
    ensures r.Ok? <==> 1 <= Ordinal(d) + n <= Ordinal(LastDate)
    ensures r.Ok? ==> Ordinal(r.value) == Ordinal(d) + n
    ensures r.Err? ==> r.error == OverflowError("date value out of range")
    decreases if n < 0 then -n else n
  {
    OrdinalRange(d);
    if n == 0 then Ok(d)
    else if n > 0 then
      if d == LastDate then Err(OverflowError("date value out of range"))
      else ShiftDays(NextDay(d), n - 1)
    else
      if d == FirstDate then Err(OverflowError("date value out of range"))
      else ShiftDays(PrevDay(d), n + 1)
  }

  /** `d.replace(day=day)`: the same month with another day, or the
      `ValueError` Python raises when that day does not exist. */
  function ReplaceDay(d: CalendarDate, day: int): (r: Result<CalendarDate>)
    ensures r.Ok? <==> 1 <= day <= DaysInMonth(d.year, d.month)
    ensures r.Ok? ==> r.value.year == d.year && r.value.month == d.month && r.value.day == day
    ensures r.Err? ==> r.error == ValueError("day is out of range for month")
  {
    if 1 <= day <= DaysInMonth(d.year, d.month) then Ok(Date(d.year, d.month, day))
    else Err(ValueError("day is out of range for month"))
  }

  const MicrosecondsPerDay: nat := 86_400_000_000

  /** A microsecond of a day, counted from midnight. */
  type DayMicrosecond = n: nat | n < MicrosecondsPerDay

  /** A `datetime`: a calendar date and the microsecond within that day. */
  datatype DateTime = DateTime(date: CalendarDate, microsecond: DayMicrosecond)

  /** `d.strftime('%Y-%m')`: the key of the calendar month `d` falls in. */
  function MonthKey(d: CalendarDate): (k: string)
    ensures |k| == 7 && k[4] == '-'
    ensures AllDigits(k[..4]) && DigitsValue(k[..4]) == d.year
    ensures AllDigits(k[5..]) && DigitsValue(k[5..]) == d.month
  {
    assert Pow10(2) == 100 && Pow10(4) == 10000;
    PadDigitsRoundTrip(d.year, 4);
    PadDigitsRoundTrip(d.month, 2);
    var k := PadDigits(d.year, 4) + "-" + PadDigits(d.month, 2);
    assert k[..4] == PadDigits(d.year, 4) && k[5..] == PadDigits(d.month, 2);
    k
  }

  /** Two dates share a month key exactly when they fall in the same
      calendar month of the same year. */
  lemma MonthKeyIdentifiesMonth(a: CalendarDate, b: CalendarDate)
    ensures MonthKey(a) == MonthKey(b) <==> (a.year == b.year && a.month == b.month)
  {
    if MonthKey(a) == MonthKey(b) {
      assert PadDigits(a.year, 4) == MonthKey(a)[..4] == MonthKey(b)[..4] == PadDigits(b.year, 4);
      assert PadDigits(a.month, 2) == MonthKey(a)[5..] == MonthKey(b)[5..] == PadDigits(b.month, 2);
      assert Pow10(2) == 100;
      assert Pow10(4) == 10000;
      PadDigitsRoundTrip(a.year, 4);
      PadDigitsRoundTrip(b.year, 4);
      PadDigitsRoundTrip(a.month, 2);
      PadDigitsRoundTrip(b.month, 2);
    }
  }
}
