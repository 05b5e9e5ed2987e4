/** The proleptic Gregorian calendar on day numbers counted from 1970-01-01.
    A sale's timestamp is a count of seconds since 1970-01-01T00:00:00; its
    calendar day is the floor of that count over 86400. */
module Calendar {

  const SecondsPerDay: int := 86400
  const EpochYear: int := 1970

  datatype Date = Date(year: int, month: int, day: int)

  predicate IsLeapYear(y: int) {
    y % 4 == 0 && (y % 100 != 0 || y % 400 == 0)
  }

  function YearLength(y: int): int {
    if IsLeapYear(y) then 366 else 365
  }

  function MonthLength(y: int, m: int): int
    requires 1 <= m <= 12
  {
    if m == 2 then (if IsLeapYear(y) then 29 else 28)
    else if m == 4 || m == 6 || m == 9 || m == 11 then 30
    else 31
  }

  /** Number of days from the first of month m to the end of year y. */
  function DaysFromMonth(y: int, m: int): int
    requires 1 <= m <= 13
    decreases 13 - m
  {
    if m == 13 then 0 else MonthLength(y, m) + DaysFromMonth(y, m + 1)
  }

  lemma TwelveMonthsMakeAYear(y: int)
    ensures DaysFromMonth(y, 1) == YearLength(y)
  {
    assert DaysFromMonth(y, 12) == 31;
    assert DaysFromMonth(y, 9) == 30 + 31 + 30 + 31;
    assert DaysFromMonth(y, 5) == 31 + 30 + 31 + 31 + 30 + 31 + 30 + 31;
  }

  lemma {:induction false} DaysFromMonthDecreasing(y: int, m: int, m': int)
    requires 1 <= m <= m' <= 13
    ensures DaysFromMonth(y, m') + (m' - m) * 28 <= DaysFromMonth(y, m)
    decreases m' - m
  {
    if m < m' {
      DaysFromMonthDecreasing(y, m + 1, m');
    }
  }

  /** Number of days from 1970-01-01 to the first of January of year y. */
  function DaysBeforeYear(y: int): int
    decreases if y >= EpochYear then y - EpochYear else EpochYear - y
  {
    if y == EpochYear then 0
    else if y > EpochYear then DaysBeforeYear(y - 1) + YearLength(y - 1)
    else DaysBeforeYear(y + 1) - YearLength(y)
  }

  lemma DaysBeforeYearStep(y: int)
    ensures DaysBeforeYear(y + 1) == DaysBeforeYear(y) + YearLength(y)
  {
  }

  lemma {:induction false} DaysBeforeYearGrows(y: int, y': int)
    requires y < y'
    ensures DaysBeforeYear(y) + YearLength(y) <= DaysBeforeYear(y')
    decreases y' - y
  {
    DaysBeforeYearStep(y);
    if y + 1 < y' {
      DaysBeforeYearGrows(y + 1, y');
    }
  }

  /** Walks from year y, where d counts days from the first of January of y,
      to the year that contains that day and the day's offset inside it. */
  function YearAndOffset(y: int, d: int): (r: (int, int))
    ensures 0 <= r.1 < YearLength(r.0)
    ensures DaysBeforeYear(r.0) + r.1 == DaysBeforeYear(y) + d
    decreases if d >= 0 then d else 366 - d
  {
    DaysBeforeYearStep(y - 1);
    DaysBeforeYearStep(y);
    if d < 0 then YearAndOffset(y - 1, d + YearLength(y - 1))
    else if d < YearLength(y) then (y, d)
    else YearAndOffset(y + 1, d - YearLength(y))
  }

  /** Walks from month m of year y, where d counts days from the first of m,
      to the month that contains that day and its day of the month. */
  function MonthAndDay(y: int, m: int, d: int): (r: (int, int))
    requires 1 <= m <= 12 && 0 <= d < DaysFromMonth(y, m)
    ensures m <= r.0 <= 12 && 1 <= r.1 <= MonthLength(y, r.0)
    ensures DaysFromMonth(y, m) - DaysFromMonth(y, r.0) + r.1 - 1 == d
    decreases 12 - m
  {
    if d < MonthLength(y, m) then (m, d + 1)
    else MonthAndDay(y, m + 1, d - MonthLength(y, m))
  }

  ghost predicate ValidDate(date: Date) {
    1 <= date.month <= 12 && 1 <= date.day <= MonthLength(date.year, date.month)
  }

  /** Day number of a calendar date, counted from 1970-01-01. */
  function DaysFromCivil(date: Date): int
    requires 1 <= date.month <= 12
  {
    DaysBeforeYear(date.year) + (YearLength(date.year) - DaysFromMonth(date.year, date.month)) + date.day - 1
  }

  /** Calendar date of a day number counted from 1970-01-01. */
  function CivilFromDays(n: int): (date: Date)
    ensures ValidDate(date)
    ensures DaysFromCivil(date) == n
  {
    var (y, offset) := YearAndOffset(EpochYear, n);
    TwelveMonthsMakeAYear(y);
    var (m, d) := MonthAndDay(y, 1, offset);
    Date(y, m, d)
  }

  /** Inside one year, the first-of-month offsets separate the months. */
  lemma MonthsAreDisjoint(y: int, m: int, d: int, m': int, d': int)
    requires 1 <= m <= 12 && 1 <= d <= MonthLength(y, m)
    requires 1 <= m' <= 12 && 1 <= d' <= MonthLength(y, m')
    requires DaysFromMonth(y, m) - d == DaysFromMonth(y, m') - d'
    ensures m == m' && d == d'
  {
    if m < m' {
      DaysFromMonthDecreasing(y, m + 1, m');
    } else if m' < m {
      DaysFromMonthDecreasing(y, m' + 1, m);
    }
  }

  /** Every valid date is the calendar date of its own day number: together
      with CivilFromDays' contract this makes the two functions inverse. */
  lemma CivilFromDaysInverse(date: Date)
    requires ValidDate(date)
    ensures CivilFromDays(DaysFromCivil(date)) == date
  {
    var n := DaysFromCivil(date);
    var r := CivilFromDays(n);
    var (y, m, d) := (date.year, date.month, date.day);
    TwelveMonthsMakeAYear(y);
    TwelveMonthsMakeAYear(r.year);
    DaysFromMonthDecreasing(y, 1, m);
    DaysFromMonthDecreasing(r.year, 1, r.month);
    if r.year < y {
      DaysBeforeYearGrows(r.year, y);
    } else if y < r.year {
      DaysBeforeYearGrows(y, r.year);
    }
    assert r.year == y;
    MonthsAreDisjoint(y, m, d, r.month, r.day);
  }

  /** Calendar day of a timestamp in seconds: the floor of t / 86400. */
  function DayNumber(t: int): (n: int)
    ensures n * SecondsPerDay <= t < (n + 1) * SecondsPerDay
  {
    t / SecondsPerDay
  }

  /** Day of the week with Monday = 0; 1970-01-01 was a Thursday. */
  function Weekday(n: int): (w: int)
    ensures 0 <= w <= 6
  {
    (n + 3) % 7
  }

  lemma WeekdayAdvances(n: int)
    ensures Weekday(n + 1) == (Weekday(n) + 1) % 7
    ensures Weekday(n + 7) == Weekday(n)
  {
  }

  lemma EpochIsThursday()
    ensures CivilFromDays(0) == Date(1970, 1, 1)
    ensures Weekday(0) == 3
  {
    CivilFromDaysInverse(Date(1970, 1, 1));
  }
}
