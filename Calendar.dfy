/** The proleptic Gregorian calendar as Python's `datetime.date` and the
    `calendar` module see it: years 1 to 9999, dates numbered by their
    ordinal (1 January of year 1 is day 1). */
module Calendar {

  /** `datetime.MINYEAR` and `datetime.MAXYEAR`. */
  const MIN_YEAR: int := 1
  const MAX_YEAR: int := 9999

  /** The ordinal of 31 December 9999, the last date Python represents. */
  const MAX_ORDINAL: int := 3652059

  datatype Date = Date(year: int, month: int, day: int)

  /** Gregorian leap years: divisible by 4, except centuries not divisible by 400. */
  predicate IsLeapYear(y: int) {
    y % 4 == 0 && (y % 100 != 0 || y % 400 == 0)
  }

  function DaysInYear(y: int): nat {
    if IsLeapYear(y) then 366 else 365
  }

  /** Length of month `m` of year `y`, the second half of `calendar.monthrange(y, m)`. */
  function DaysInMonth(y: int, m: int): (n: int)
    requires 1 <= m <= 12
    ensures 28 <= n <= 31
    ensures n == 29 <==> m == 2 && IsLeapYear(y)
  {
    if m == 2 then (if IsLeapYear(y) then 29 else 28)
    else if m == 4 || m == 6 || m == 9 || m == 11 then 30
    else 31
  }

  /** The dates `datetime.date(year, month, day)` accepts. */
  predicate ValidDate(d: Date) {
    && MIN_YEAR <= d.year <= MAX_YEAR
    && 1 <= d.month <= 12
    && 1 <= d.day <= DaysInMonth(d.year, d.month)
  }

  /** Days in the years 1 .. y-1. */
  function DaysBeforeYear(y: int): int {
    var p := y - 1;
    365 * p + p / 4 - p / 100 + p / 400
  }

  /** Days in the months 1 .. m-1 of year y; m = 13 counts the whole year. */
  function DaysBeforeMonth(y: int, m: int): int
    requires 1 <= m <= 13
  {
    var cumulative := [0, 31, 59, 90, 120, 151, 181, 212, 243, 273, 304, 334, 365];
    cumulative[m - 1] + (if m > 2 && IsLeapYear(y) then 1 else 0)
  }

  /** Day number of a date, counting 1 January of year 1 as day 1
      (Python's `date.toordinal()`). */
  function Ordinal(d: Date): (n: int)
    requires ValidDate(d)
    ensures DaysBeforeYear(d.year) < n <= DaysBeforeYear(d.year + 1)
  {
    DaysBeforeYearStep(d.year);
    DaysBeforeMonthStep(d.year, d.month);
    DaysBeforeMonthMonotone(d.year, d.month + 1, 13);
    DaysBeforeYear(d.year) + DaysBeforeMonth(d.year, d.month) + d.day
  }

  /** Day of the week, Monday = 0 (Python's `date.weekday()`). */
  function Weekday(d: Date): (w: int)
    requires ValidDate(d)
    ensures 0 <= w < 7
  {
    (Ordinal(d) + 6) % 7
  }

  /** The first day of Python's calendar, 1 January of year 1, is a Monday. */
  lemma WeekdayEpoch()
    ensures Weekday(Date(MIN_YEAR, 1, 1)) == 0
  {
  }

  /** `calendar.monthrange(y, m)`: weekday of the first of the month and the month's length. */
  function MonthRange(y: int, m: int): (r: (int, int))
    requires MIN_YEAR <= y <= MAX_YEAR && 1 <= m <= 12
    ensures 0 <= r.0 < 7 && 28 <= r.1 <= 31
  {
    (Weekday(Date(y, m, 1)), DaysInMonth(y, m))
  }

  /** The date with ordinal `n` (Python's `date.fromordinal(n)`): the one
      valid date whose ordinal is `n`. */
  function FromOrdinal(n: int): (d: Date)
    requires 1 <= n <= MAX_ORDINAL
    ensures ValidDate(d) && Ordinal(d) == n
  {
    OrdinalSurjective(n);
    OrdinalsDistinct();
    var d :| ValidDate(d) && Ordinal(d) == n; d
  }

  /** Every day number in Python's range is the ordinal of a date, found by
      locating its year and then its month. */
  lemma OrdinalSurjective(n: int)
    requires 1 <= n <= MAX_ORDINAL
    ensures exists d :: ValidDate(d) && Ordinal(d) == n
  {
    var y := YearOf(n);
    DaysBeforeYearStep(y);
    var k := n - DaysBeforeYear(y);
    var m := MonthOf(y, k);
    DaysBeforeMonthStep(y, m);
    var d := Date(y, m, k - DaysBeforeMonth(y, m));
    assert ValidDate(d) && Ordinal(d) == n;
  }

  /** The year whose days include day number `n`: the estimate 400 (n - 1) / 146097
      (146097 days in 400 years) is that year or the one before it. */
  function YearOf(n: int): (y: int)
    requires 1 <= n <= MAX_ORDINAL
    ensures MIN_YEAR <= y <= MAX_YEAR
    ensures DaysBeforeYear(y) < n <= DaysBeforeYear(y + 1)
  {
    var j := 400 * (n - 1) / 146097;
    assert 146097 * j <= 400 * (n - 1) < 146097 * j + 146097;
    DaysBeforeYearBounds(j + 1);
    DaysBeforeYearBounds(j + 3);
    var y := if n <= DaysBeforeYear(j + 2) then j + 1 else j + 2;
    assert y <= MAX_YEAR by {
      if y > MAX_YEAR {
        DaysBeforeYearMonotone(MAX_YEAR + 1, y);
      }
    }
    y
  }

  /** The month that holds day `k` of year `y`. The estimate (k + 49) / 32
      is the one CPython's `ord_to_ymd` uses; the rest of this definition
      is independent of CPython. It is corrected by at most one. */
  function MonthOf(y: int, k: int): (m: int)
    requires 1 <= k <= DaysInYear(y)
    ensures 1 <= m <= 12
    ensures DaysBeforeMonth(y, m) < k <= DaysBeforeMonth(y, m + 1)
  {
    var estimate := (k + 49) / 32;
    assert 1 <= estimate <= 12;
    if DaysBeforeMonth(y, estimate) >= k then estimate - 1 else estimate
  }

  lemma DaysBeforeMonthStep(y: int, m: int)
    requires 1 <= m <= 12
    ensures DaysBeforeMonth(y, m + 1) == DaysBeforeMonth(y, m) + DaysInMonth(y, m)
    ensures DaysBeforeMonth(y, 13) == DaysInYear(y)
  {
  }

  lemma {:induction false} DaysBeforeMonthMonotone(y: int, m1: int, m2: int)
    requires 1 <= m1 <= m2 <= 13
    ensures DaysBeforeMonth(y, m1) <= DaysBeforeMonth(y, m2)
    decreases m2 - m1
  {
    if m1 < m2 {
      DaysBeforeMonthStep(y, m1);
      DaysBeforeMonthMonotone(y, m1 + 1, m2);
    }
  }

  /** Adding one to a non-negative number raises its quotient by `k`
      exactly when the sum is a multiple of `k` (for the divisors of the
      leap-year rule). */
  lemma QuotientStep(p: int, k: int)
    requires p >= 0 && (k == 4 || k == 100 || k == 400)
    ensures (p + 1) / k == p / k + (if (p + 1) % k == 0 then 1 else 0)
  {
  }

  /** A multiple of 400 is a multiple of 100, and a multiple of 100 is a multiple of 4. */
  lemma DivisorChain(y: int)
    ensures y % 400 == 0 ==> y % 100 == 0
    ensures y % 100 == 0 ==> y % 4 == 0
  {
    if y % 400 == 0 {
      var t := y / 400;
      assert y == 100 * (4 * t);
    }
    if y % 100 == 0 {
      var t := y / 100;
      assert y == 4 * (25 * t);
    }
  }

  /** Each year contributes its own length to the running day count. */
  lemma DaysBeforeYearStep(y: int)
    requires y >= MIN_YEAR
    ensures DaysBeforeYear(y + 1) == DaysBeforeYear(y) + DaysInYear(y)
  {
    var p := y - 1;
    QuotientStep(p, 4);
    QuotientStep(p, 100);
    QuotientStep(p, 400);
    DivisorChain(y);
  }

  /** The day count of the years before `y` stays within a day or two of
      146097 / 400 days per year. */
  lemma DaysBeforeYearBounds(y: int)
    requires y >= MIN_YEAR
    ensures 146097 * (y - 1) - 699 <= 400 * DaysBeforeYear(y) <= 146097 * (y - 1) + 396
  {
    var p := y - 1;
    assert p == 4 * (p / 4) + p % 4;
    assert p == 100 * (p / 100) + p % 100;
    assert p == 400 * (p / 400) + p % 400;
  }

  lemma {:induction false} DaysBeforeYearMonotone(a: int, b: int)
    requires MIN_YEAR <= a <= b
    ensures DaysBeforeYear(a) <= DaysBeforeYear(b)
    decreases b - a
  {
    if a < b {
      DaysBeforeYearStep(a);
      DaysBeforeYearMonotone(a + 1, b);
    }
  }

  /** Every valid date has an ordinal in Python's range. */
  lemma OrdinalInRange(d: Date)
    requires ValidDate(d)
    ensures 1 <= Ordinal(d) <= MAX_ORDINAL
  {
    DaysBeforeYearMonotone(MIN_YEAR, d.year);
    DaysBeforeYearMonotone(d.year + 1, MAX_YEAR + 1);
  }

  /** Later dates have larger ordinals: the ordinal respects the calendar order. */
  lemma {:induction false} OrdinalOrdered(a: Date, b: Date)
    requires ValidDate(a) && ValidDate(b)
    requires a.year < b.year
          || (a.year == b.year && a.month < b.month)
          || (a.year == b.year && a.month == b.month && a.day < b.day)
    ensures Ordinal(a) < Ordinal(b)
  {
    if a.year < b.year {
      DaysBeforeYearMonotone(a.year + 1, b.year);
    } else if a.month < b.month {
      DaysBeforeMonthStep(a.year, a.month);
      DaysBeforeMonthMonotone(a.year, a.month + 1, b.month);
    }
  }

  /** Distinct dates have distinct ordinals. */
  lemma OrdinalInjective(a: Date, b: Date)
    requires ValidDate(a) && ValidDate(b) && Ordinal(a) == Ordinal(b)
    ensures a == b
  {
    if a.year < b.year || (a.year == b.year && a.month < b.month)
      || (a.year == b.year && a.month == b.month && a.day < b.day) {
      OrdinalOrdered(a, b);
    } else if b.year < a.year || (a.year == b.year && b.month < a.month)
      || (a.year == b.year && a.month == b.month && b.day < a.day) {
      OrdinalOrdered(b, a);
    }
  }

  lemma OrdinalsDistinct()
    ensures forall a, b :: ValidDate(a) && ValidDate(b) && Ordinal(a) == Ordinal(b) ==> a == b
  {
    forall a, b | ValidDate(a) && ValidDate(b) && Ordinal(a) == Ordinal(b)
      ensures a == b
    {
      OrdinalInjective(a, b);
    }
  }

  /** Converting a date to its ordinal and back gives the date again. */
  lemma FromOrdinalOrdinal(d: Date)
    requires ValidDate(d)
    ensures 1 <= Ordinal(d) <= MAX_ORDINAL && FromOrdinal(Ordinal(d)) == d
  {
    OrdinalInRange(d);
    OrdinalInjective(FromOrdinal(Ordinal(d)), d);
  }

  /** The calendar's successor of a valid date, defined month by month. */
  function NextDay(d: Date): (r: Date)
    requires ValidDate(d)
  {
    if d.day < DaysInMonth(d.year, d.month) then Date(d.year, d.month, d.day + 1)
    else if d.month < 12 then Date(d.year, d.month + 1, 1)
    else Date(d.year + 1, 1, 1)
  }

  /** The ordinal numbering agrees with stepping through the calendar one
      day at a time. */
  lemma NextDayOrdinal(d: Date)
    requires ValidDate(d) && d != Date(MAX_YEAR, 12, 31)
    ensures ValidDate(NextDay(d)) && Ordinal(NextDay(d)) == Ordinal(d) + 1
  {
    if d.day < DaysInMonth(d.year, d.month) {
    } else if d.month < 12 {
      DaysBeforeMonthStep(d.year, d.month);
    } else {
      DaysBeforeMonthStep(d.year, 12);
      DaysBeforeYearStep(d.year);
    }
  }

  /** The weekday advances by one, modulo 7, from each day to the next. */
  lemma WeekdayNextDay(d: Date)
    requires ValidDate(d) && d != Date(MAX_YEAR, 12, 31)
    ensures ValidDate(NextDay(d)) && Weekday(NextDay(d)) == (Weekday(d) + 1) % 7
  {
    NextDayOrdinal(d);
    WeekStep(Ordinal(d) + 6);
  }

  /** Counting one further moves the remainder modulo 7 one further. */
  lemma WeekStep(n: int)
    ensures (n + 1) % 7 == (n % 7 + 1) % 7
  {
  }
}
