/** `extend_date_by` of subscription/utils.py: advance a date by a number of
    days, weeks, months or years. */
module DateUtils {
  import opened Wrappers
  import opened Calendar

  /** The exceptions `extend_date_by` can raise. */
  datatype DateError =
    | UnknownUnit     // the `raise "Unknown unit."` of the final branch
    | Overflow        // OverflowError: `date + timedelta` outside years 1..9999, or a year outside a C `int`
    | YearOutOfRange  // ValueError of `datetime.date` (or `calendar.monthrange`) for a year outside 1..9999
    | DayOutOfRange   // ValueError of `datetime.date` for a day past the end of the month

  /** `date + datetime.timedelta(days)`. */
  function AddDays(date: Date, days: int): (r: Result<Date, DateError>)
    requires ValidDate(date)
    ensures r.Ok? <==> 1 <= Ordinal(date) + days <= MAX_ORDINAL
    ensures r.Ok? ==> ValidDate(r.value) && Ordinal(r.value) == Ordinal(date) + days
    ensures r.Err? ==> r.error == Overflow
  {
    var n := Ordinal(date) + days;
    if 1 <= n <= MAX_ORDINAL then Ok(FromOrdinal(n)) else Err(Overflow)
  }

  /** `datetime.date` parses its arguments as C `int`s (32 bits), raising
      OverflowError for a value outside that range before any range check. */
  const C_INT_MIN := -0x8000_0000
  const C_INT_MAX := 0x7FFF_FFFF

  predicate FitsCInt(x: int) {
    C_INT_MIN <= x <= C_INT_MAX
  }

  /** The error `datetime.date` raises for a year outside 1..9999. */
  function YearError(y: int): DateError {
    if FitsCInt(y) then YearOutOfRange else Overflow
  }

  /** The constructor `datetime.date(y, m, d)`, for a month already in range. */
  function MakeDate(y: int, m: int, d: int): (r: Result<Date, DateError>)
    requires 1 <= m <= 12
    ensures r.Ok? <==> MIN_YEAR <= y <= MAX_YEAR && 1 <= d <= DaysInMonth(y, m)
    ensures r.Ok? ==> r.value == Date(y, m, d) && ValidDate(r.value)
    ensures r.Err? ==> r.error == if MIN_YEAR <= y <= MAX_YEAR then DayOutOfRange else YearError(y)
  {
    if !FitsCInt(y) then Err(Overflow)
    else if !(MIN_YEAR <= y <= MAX_YEAR) then Err(YearOutOfRange)
    else if !(1 <= d <= DaysInMonth(y, m)) then Err(DayOutOfRange)
    else Ok(Date(y, m, d))
  }

  /** Extend `date` by `amount` units `unit` ("D", "W", "M" or "Y").
      The month branch keeps the source's steps: Python 2 `/` and `%` on
      integers floor, which for the divisor 12 is Dafny's Euclidean `/` and `%`. */
  function ExtendDateBy(date: Date, amount: int, unit: string): (r: Result<Date, DateError>)
    requires ValidDate(date)
    ensures r.Ok? ==> ValidDate(r.value)
  {
    if unit == "D" then AddDays(date, amount)
    else if unit == "W" then AddDays(date, 7 * amount)
    else if unit == "M" then
      var m0 := date.month + amount;
      var y0 := date.year + m0 / 12;
      var m1 := m0 % 12;
      var (y, m) := if m1 == 0 then (y0 - 1, 12) else (y0, m1);
      if !FitsCInt(y) then Err(Overflow)  // calendar.monthrange calls datetime.date(y, m, 1)
      else if !(MIN_YEAR <= y <= MAX_YEAR) then Err(YearOutOfRange)
      else
        var last := DaysInMonth(y, m);  // calendar.monthrange(y, m)[1]
        var d := if date.day > last then last else date.day;
        Ok(Date(y, m, d))
    else if unit == "Y" then MakeDate(date.year + amount, date.month, date.day)
    else Err(UnknownUnit)
  }

  function Min(a: int, b: int): int {
    if a <= b then a else b
  }

  /** Unit "D" gives the date exactly `amount` days later, and fails only
      when that date is outside Python's range. */
  lemma ExtendByDays(date: Date, amount: int)
    requires ValidDate(date)
    ensures var r := ExtendDateBy(date, amount, "D");
      && (r.Ok? <==> 1 <= Ordinal(date) + amount <= MAX_ORDINAL)
      && (r.Ok? ==> Ordinal(r.value) == Ordinal(date) + amount)
      && (r.Err? ==> r.error == Overflow)
  {
  }

  /** One day later is the calendar's next day. */
  lemma OneDayIsNextDay(date: Date)
    requires ValidDate(date) && date != Date(MAX_YEAR, 12, 31)
    ensures ExtendDateBy(date, 1, "D") == Ok(NextDay(date))
  {
    NextDayOrdinal(date);
    FromOrdinalOrdinal(NextDay(date));
  }

  /** Adding `a` days and then `b` days is adding `a + b` days. */
  lemma DaysCompose(date: Date, a: int, b: int)
    requires ValidDate(date) && ExtendDateBy(date, a, "D").Ok?
    ensures ExtendDateBy(ExtendDateBy(date, a, "D").value, b, "D") == ExtendDateBy(date, a + b, "D")
  {
  }

  /** Unit "W" is seven days per week. */
  lemma ExtendByWeeks(date: Date, amount: int)
    requires ValidDate(date)
    ensures ExtendDateBy(date, amount, "W") == ExtendDateBy(date, 7 * amount, "D")
  {
  }

  /** Unit "M": with t = month - 1 + amount, the new month is t mod 12 + 1 and
      the new year is year + t div 12; the day is kept if the new month has it
      and is otherwise the new month's last day. Only a year outside 1..9999 fails,
      with OverflowError when it does not fit a C `int` and ValueError otherwise. */
  lemma ExtendByMonths(date: Date, amount: int)
    requires ValidDate(date)
    ensures var r := ExtendDateBy(date, amount, "M");
      var t := date.month - 1 + amount;
      var y, m := date.year + t / 12, t % 12 + 1;
      && (r.Ok? <==> MIN_YEAR <= y <= MAX_YEAR)
      && (r.Err? ==> r.error == YearError(y))
      && (r.Ok? ==> r.value == Date(y, m, Min(date.day, DaysInMonth(y, m))))
  {
    var t := date.month - 1 + amount;
    var q, s := t / 12, t % 12;
    assert t == 12 * q + s && 0 <= s < 12;
    var m0 := date.month + amount;
    if s == 11 {
      assert m0 == 12 * (q + 1);
      assert m0 / 12 == q + 1 && m0 % 12 == 0;
    } else {
      assert m0 == 12 * q + (s + 1);
      assert m0 / 12 == q && m0 % 12 == s + 1;
    }
  }

  /** A month step keeps the day whenever the target month has that day. */
  lemma MonthKeepsFittingDay(date: Date, amount: int)
    requires ValidDate(date)
    requires var t := date.month - 1 + amount;
      MIN_YEAR <= date.year + t / 12 <= MAX_YEAR
      && date.day <= DaysInMonth(date.year + t / 12, t % 12 + 1)
    ensures ExtendDateBy(date, amount, "M").Ok?
    ensures ExtendDateBy(date, amount, "M").value.day == date.day
  {
    ExtendByMonths(date, amount);
  }

  /** Extending by one month from any day of any month goes to the next month,
      wrapping December to January of the next year, without failing. */
  lemma MonthlyStep(date: Date)
    requires ValidDate(date) && (date.month < 12 || date.year < MAX_YEAR)
    ensures var r := ExtendDateBy(date, 1, "M");
      && r.Ok?
      && r.value.month == (if date.month == 12 then 1 else date.month + 1)
      && r.value.year == (if date.month == 12 then date.year + 1 else date.year)
  {
    ExtendByMonths(date, 1);
  }

  /** Unit "Y" keeps month and day and adds `amount` to the year; it does not
      clamp, so 29 February into a common year is an error. */
  lemma ExtendByYears(date: Date, amount: int)
    requires ValidDate(date)
    ensures var r := ExtendDateBy(date, amount, "Y");
      var y := date.year + amount;
      && (r.Ok? <==> MIN_YEAR <= y <= MAX_YEAR && date.day <= DaysInMonth(y, date.month))
      && (r.Ok? ==> r.value == Date(y, date.month, date.day))
      && (r.Err? ==> r.error == if MIN_YEAR <= y <= MAX_YEAR then DayOutOfRange else YearError(y))
  {
  }

  /** A target year that does not fit a C `int` overflows; the largest one
      that does is only out of range. */
  lemma HugeYearsExample()
    ensures ExtendDateBy(Date(2007, 1, 1), 2147483647, "Y") == Err(Overflow)
    ensures ExtendDateBy(Date(2007, 1, 1), 2147481640, "Y") == Err(YearOutOfRange)
    ensures ExtendDateBy(Date(2007, 1, 1), 12 * 2147483647, "M") == Err(Overflow)
    ensures ExtendDateBy(Date(2007, 1, 1), -12 * 2007, "M") == Err(YearOutOfRange)
  {
  }

  lemma LeapDayByYears()
    ensures ExtendDateBy(Date(2012, 2, 29), 1, "Y") == Err(DayOutOfRange)
    ensures ExtendDateBy(Date(2012, 2, 29), 4, "Y") == Ok(Date(2016, 2, 29))
    ensures ExtendDateBy(Date(2012, 2, 29), 1, "M") == Ok(Date(2012, 3, 29))
    ensures ExtendDateBy(Date(2012, 1, 31), 1, "M") == Ok(Date(2012, 2, 29))
    ensures ExtendDateBy(Date(2011, 1, 31), 1, "M") == Ok(Date(2011, 2, 28))
  {
  }

  /** Exactly the units other than "D", "W", "M" and "Y" are rejected. */
  lemma UnknownUnitRejected(date: Date, amount: int, unit: string)
    requires ValidDate(date)
    ensures ExtendDateBy(date, amount, unit) == Err(UnknownUnit)
        <==> unit != "D" && unit != "W" && unit != "M" && unit != "Y"
  {
  }

  lemma DaysLater(a: Date, n: int, b: Date)
    requires ValidDate(a) && ValidDate(b) && Ordinal(b) == Ordinal(a) + n
    ensures ExtendDateBy(a, n, "D") == Ok(b)
    ensures n % 7 == 0 ==> ExtendDateBy(a, n / 7, "W") == Ok(b)
  {
    FromOrdinalOrdinal(b);
    OrdinalInRange(a);
  }

  // The examples of the function's documentation, one lemma each.

  lemma FiveYearsExample()
    ensures ExtendDateBy(Date(2007, 4, 3), 5, "Y") == Ok(Date(2012, 4, 3))
  {
  }

  lemma FiveMonthsExample()
    ensures ExtendDateBy(Date(2007, 4, 3), 5, "M") == Ok(Date(2007, 9, 3))
  {
  }

  lemma FiveMonthsToDecemberExample()
    ensures ExtendDateBy(Date(2007, 7, 3), 5, "M") == Ok(Date(2007, 12, 3))
  {
  }

  lemma FiveMonthsToJanuaryExample()
    ensures ExtendDateBy(Date(2007, 8, 3), 5, "M") == Ok(Date(2008, 1, 3))
  {
  }

  lemma FiveMonthsToMarchExample()
    ensures ExtendDateBy(Date(2007, 10, 3), 5, "M") == Ok(Date(2008, 3, 3))
  {
  }

  lemma OneWeekExample()
    ensures ExtendDateBy(Date(2007, 10, 3), 1, "W") == Ok(Date(2007, 10, 10))
  {
    DaysLater(Date(2007, 10, 3), 7, Date(2007, 10, 10));
  }

  lemma TwoWeeksExample()
    ensures ExtendDateBy(Date(2007, 10, 3), 2, "W") == Ok(Date(2007, 10, 17))
  {
    DaysLater(Date(2007, 10, 3), 14, Date(2007, 10, 17));
  }

  lemma FiveWeeksExample()
    ensures ExtendDateBy(Date(2007, 10, 3), 5, "W") == Ok(Date(2007, 11, 7))
  {
    DaysLater(Date(2007, 10, 3), 35, Date(2007, 11, 7));
  }

  lemma FiveWeeksToJanuaryExample()
    ensures ExtendDateBy(Date(2007, 12, 3), 5, "W") == Ok(Date(2008, 1, 7))
  {
    DaysLater(Date(2007, 12, 3), 35, Date(2008, 1, 7));
  }

  lemma TwentyNineDaysExample()
    ensures ExtendDateBy(Date(2007, 10, 3), 29, "D") == Ok(Date(2007, 11, 1))
  {
    DaysLater(Date(2007, 10, 3), 29, Date(2007, 11, 1));
  }

  lemma TwentyNineDaysLaterExample()
    ensures ExtendDateBy(Date(2007, 10, 7), 29, "D") == Ok(Date(2007, 11, 5))
  {
    DaysLater(Date(2007, 10, 7), 29, Date(2007, 11, 5));
  }

  lemma NinetyNineDaysExample()
    ensures ExtendDateBy(Date(2007, 10, 7), 99, "D") == Ok(Date(2008, 1, 14))
  {
    DaysLater(Date(2007, 10, 7), 99, Date(2008, 1, 14));
  }

  lemma FiveDaysExample()
    ensures ExtendDateBy(Date(2007, 12, 3), 5, "D") == Ok(Date(2007, 12, 8))
  {
    DaysLater(Date(2007, 12, 3), 5, Date(2007, 12, 8));
  }

  lemma FiveDaysToJanuaryExample()
    ensures ExtendDateBy(Date(2007, 12, 30), 5, "D") == Ok(Date(2008, 1, 4))
  {
    DaysLater(Date(2007, 12, 30), 5, Date(2008, 1, 4));
  }

  lemma UnknownUnitExample()
    ensures ExtendDateBy(Date(2007, 10, 7), 99, "Q") == Err(UnknownUnit)
  {
  }

  /** The last day the month test of subscription/tests.py visits, as written:
      it loops over `xrange(1, calendar.monthrange(year, month)[0] + 1)`, and
      `[0]` is the weekday of the first of the month. */
  function MonthTestLastDayAsWritten(y: int, m: int): (last: int)
    requires MIN_YEAR <= y <= MAX_YEAR && 1 <= m <= 12
    ensures 0 <= last <= 6
  {
    MonthRange(y, m).0
  }

  /** The last day the test evidently means to visit: the month's own last day,
      `calendar.monthrange(year, month)[1]`. */
  function MonthTestLastDay(y: int, m: int): (last: int)
    requires MIN_YEAR <= y <= MAX_YEAR && 1 <= m <= 12
    ensures ValidDate(Date(y, m, last)) && !ValidDate(Date(y, m, last + 1))
  {
    MonthRange(y, m).1
  }

  /** As written the test stops before day 7 of every month, so it never
      reaches a month's last day, where clamping happens. */
  lemma MonthTestAsWrittenMissesDays(y: int, m: int)
    requires MIN_YEAR <= y <= MAX_YEAR && 1 <= m <= 12
    ensures MonthTestLastDayAsWritten(y, m) < MonthTestLastDay(y, m)
  {
  }

  /** August 2011 starts on a Monday, so the test as written visits none of its days. */
  lemma MonthTestAsWrittenSkipsAugust2011()
    ensures MonthTestLastDayAsWritten(2011, 8) == 0
  {
    assert Weekday(Date(2011, 8, 1)) == 0;
  }

  /** The corrected test holds for every day of every month of the years it uses. */
  lemma MonthTestPasses(y: int, m: int, d: int)
    requires (y == 2011 || y == 2012) && 1 <= m <= 12 && 1 <= d <= MonthTestLastDay(y, m)
    ensures var r := ExtendDateBy(Date(y, m, d), 1, "M");
      r.Ok? && r.value.month == (if m == 12 then 1 else m + 1)
  {
    MonthlyStep(Date(y, m, d));
  }
}
