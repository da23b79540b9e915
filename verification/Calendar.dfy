/**
 Proleptic Gregorian dates (ISO 8601 calendar dates) and the monthly period of an hours account.

 The source keeps dates as `YYYY-MM-DD` text and compares the text; `Before` is that order on
 four-digit years.
 */
module Calendar {

  datatype Date = Date(year: int, month: int, day: int)

  predicate Leap(year: int) {
    year % 4 == 0 && (year % 100 != 0 || year % 400 == 0)
  }

  function DaysInMonth(year: int, month: int): (n: int)
    ensures 28 <= n <= 31
  {
    if month == 2 then (if Leap(year) then 29 else 28)
    else if month in {4, 6, 9, 11} then 30
    else 31
  }

  predicate IsDate(d: Date) {
    1 <= d.month <= 12 && 1 <= d.day <= DaysInMonth(d.year, d.month)
  }

  predicate Before(a: Date, b: Date) {
    a.year < b.year
    || (a.year == b.year && (a.month < b.month || (a.month == b.month && a.day < b.day)))
  }

  predicate AtMost(a: Date, b: Date) {
    a == b || Before(a, b)
  }

  /** Months are counted from January of year 0. */
  function MonthIndex(d: Date): int {
    12 * d.year + d.month - 1
  }

  function NextDay(d: Date): (next: Date)
    requires IsDate(d)
    ensures IsDate(next) && Before(d, next)
  {
    if d.day < DaysInMonth(d.year, d.month) then d.(day := d.day + 1)
    else if d.month < 12 then Date(d.year, d.month + 1, 1)
    else Date(d.year + 1, 1, 1)
  }

  function PrevDay(d: Date): (prev: Date)
    requires IsDate(d)
    ensures IsDate(prev) && Before(prev, d) && NextDay(prev) == d
  {
    if d.day > 1 then d.(day := d.day - 1)
    else if d.month > 1 then Date(d.year, d.month - 1, DaysInMonth(d.year, d.month - 1))
    else Date(d.year - 1, 12, 31)
  }

  // ---------------------------------------------------------------- day numbers

  function DaysInYear(year: int): int {
    if Leap(year) then 366 else 365
  }

  /** Days from 1 January 1970 to 1 January of `year`; negative before 1970. */
  function DaysBeforeYear(year: int): int
    decreases if year < 1970 then 1970 - year else year - 1970
  {
    if year == 1970 then 0
    else if year > 1970 then DaysBeforeYear(year - 1) + DaysInYear(year - 1)
    else DaysBeforeYear(year + 1) - DaysInYear(year)
  }

  function DaysBeforeMonth(year: int, month: int): int {
    var february := if Leap(year) then 29 else 28;
    match month
    case 1 => 0
    case 2 => 31
    case 3 => 31 + february
    case 4 => 62 + february
    case 5 => 92 + february
    case 6 => 123 + february
    case 7 => 153 + february
    case 8 => 184 + february
    case 9 => 215 + february
    case 10 => 245 + february
    case 11 => 276 + february
    case _ => 306 + february
  }

  /** Days since 1 January 1970. */
  function Ordinal(d: Date): int {
    DaysBeforeYear(d.year) + DaysBeforeMonth(d.year, d.month) + d.day - 1
  }

  lemma YearStep(year: int)
    ensures DaysBeforeYear(year + 1) == DaysBeforeYear(year) + DaysInYear(year)
  {
  }

  lemma {:induction false} YearsGrow(a: int, b: int)
    requires a < b
    ensures DaysBeforeYear(a) + DaysInYear(a) <= DaysBeforeYear(b)
    decreases b - a
  {
    YearStep(b - 1);
    if a + 1 < b {
      YearsGrow(a, b - 1);
    }
  }

  /** The last days of the months, leap years and the count of days, where they are known. */
  lemma KnownDays()
    ensures IsDate(Date(2000, 2, 29)) && IsDate(Date(2024, 2, 29)) && !IsDate(Date(1900, 2, 29)) && !IsDate(Date(2023, 2, 29))
    ensures forall year :: !IsDate(Date(year, 4, 31)) && !IsDate(Date(year, 6, 31)) && !IsDate(Date(year, 9, 31))
                           && !IsDate(Date(year, 11, 31)) && !IsDate(Date(year, 2, 30))
    ensures forall year, month :: 1 <= month <= 12 && month !in {2, 4, 6, 9, 11} ==>
              IsDate(Date(year, month, 31)) && !IsDate(Date(year, month, 32))
    ensures forall year :: IsDate(Date(year, 4, 30)) && IsDate(Date(year, 6, 30)) && IsDate(Date(year, 9, 30))
                           && IsDate(Date(year, 11, 30)) && IsDate(Date(year, 2, 28))
    ensures Ordinal(Date(1970, 1, 1)) == 0 && Ordinal(Date(1972, 3, 1)) == 790 && Ordinal(Date(1969, 12, 31)) == -1
  {
  }

  /** A day after another has the next day number. */
  lemma NextDayOrdinal(d: Date)
    requires IsDate(d)
    ensures Ordinal(NextDay(d)) == Ordinal(d) + 1
  {
    YearStep(d.year);
  }

  /** The order of day numbers is the order of dates. */
  lemma OrdinalOrder(a: Date, b: Date)
    requires IsDate(a) && IsDate(b)
    ensures Before(a, b) <==> Ordinal(a) < Ordinal(b)
    ensures AtMost(a, b) <==> Ordinal(a) <= Ordinal(b)
  {
    if a.year < b.year {
      YearsGrow(a.year, b.year);
    } else if b.year < a.year {
      YearsGrow(b.year, a.year);
    }
  }

  /** No date lies between a day and the next. */
  lemma AfterUntil(a: Date, b: Date)
    requires IsDate(a) && IsDate(b)
    ensures Before(a, b) <==> AtMost(NextDay(a), b)
    ensures !Before(a, b) <==> AtMost(b, a)
  {
    NextDayOrdinal(a);
    OrdinalOrder(a, b);
    OrdinalOrder(b, a);
    OrdinalOrder(NextDay(a), b);
  }

  /** The date `n` days after 1 January 1970. */
  function DateOfDay(n: nat): (d: Date)
    ensures IsDate(d) && Ordinal(d) == n && 1970 <= d.year
  {
    if n == 0 then Date(1970, 1, 1)
    else
      var before := DateOfDay(n - 1);
      NextDayOrdinal(before);
      NextDay(before)
  }

  lemma DateOfDayOrder(m: nat, n: nat)
    ensures Before(DateOfDay(m), DateOfDay(n)) <==> m < n
    ensures AtMost(DateOfDay(m), DateOfDay(n)) <==> m <= n
  {
    OrdinalOrder(DateOfDay(m), DateOfDay(n));
  }

  // ---------------------------------------------------------------- the clock

  const HOUR_MS := 3600000
  const DAY_MS := 86400000

  /** The Moscow calendar day of a moment given in milliseconds since 1970 (UTC). */
  function Today(now: nat): (d: Date)
    ensures IsDate(d) && 1970 <= d.year
  {
    DateOfDay((now + 3 * HOUR_MS) / DAY_MS)
  }

  /** The moment a Moscow calendar day begins. */
  function StartOf(d: Date): int {
    Ordinal(d) * DAY_MS - 3 * HOUR_MS
  }

  lemma TodayAdvances(earlier: nat, later: nat)
    requires earlier <= later
    ensures AtMost(Today(earlier), Today(later))
  {
    DateOfDayOrder((earlier + 3 * HOUR_MS) / DAY_MS, (later + 3 * HOUR_MS) / DAY_MS);
  }

  // ---------------------------------------------------------------- the monthly period

  datatype Period = Period(start: Date, end: Date, next: Date)

  /** `Date.UTC` reads the years 0 to 99 as 1900 to 1999. */
  function UtcYear(year: int): int {
    if 0 <= year <= 99 then 1900 + year else year
  }

  /** The reset day of month `month` of `year`, where months 0 and 13 spill into the years beside it. */
  function ResetDate(year: nat, month: int, resetDay: int): (d: Date)
    requires 0 <= month <= 13 && 1 <= resetDay <= 31
    ensures IsDate(d)
  {
    var y := UtcYear(year) + (if month == 0 then -1 else if month == 13 then 1 else 0);
    var m := if month == 0 then 12 else if month == 13 then 1 else month;
    var last := DaysInMonth(UtcYear(y), m);
    Date(y, m, Min(resetDay, last))
  }

  function Min(a: int, b: int): int {
    if a < b then a else b
  }

  function Max(a: int, b: int): int {
    if a < b then b else a
  }

  function MonthlyPeriod(today: Date, resetDay: int): (p: Period)
    requires IsDate(today) && today.year >= 0 && 1 <= resetDay <= 31
    ensures p.start.year >= 99 && IsDate(p.start) && IsDate(p.end) && IsDate(p.next) && NextDay(p.end) == p.next
  {
    var thisReset := ResetDate(today.year, today.month, resetDay);
    var start := if Before(today, thisReset) then ResetDate(today.year, today.month - 1, resetDay)
                 else thisReset;
    var next := ResetDate(start.year, start.month + 1, resetDay);
    Period(start, PrevDay(next), next)
  }

  /** What an accrual period has to satisfy: it holds today, and it and its successor tile the calendar. */
  ghost predicate Tiles(today: Date, resetDay: int)
    requires IsDate(today) && today.year >= 0 && 1 <= resetDay <= 31
  {
    var p := MonthlyPeriod(today, resetDay);
    && AtMost(p.start, today) && AtMost(today, p.end)
    && MonthlyPeriod(p.next, resetDay).start == p.next
    && forall d :: IsDate(d) && AtMost(p.start, d) && Before(d, p.next) ==> MonthlyPeriod(d, resetDay) == p
  }

  /** The dates whose period does not reach back into the years that `Date.UTC` misreads. */
  predicate Regular(today: Date, resetDay: int) {
    today.year > 100
    || (today.year == 100 && (today.month > 1 || today.day >= resetDay))
  }

  lemma RegularPeriod(today: Date, resetDay: int)
    requires IsDate(today) && 1 <= resetDay <= 31 && Regular(today, resetDay)
    ensures var p := MonthlyPeriod(today, resetDay);
      && AtMost(p.start, today) && Before(today, p.next) && p.start.year >= 100
      && p.start.day == Min(resetDay, DaysInMonth(p.start.year, p.start.month))
      && p.next.day == Min(resetDay, DaysInMonth(p.next.year, p.next.month))
      && MonthIndex(p.next) == MonthIndex(p.start) + 1
  {
  }

  /** The reset day of the month of a date splits the month between two periods. */
  lemma RegularStart(d: Date, resetDay: int)
    requires IsDate(d) && 1 <= resetDay <= 31 && Regular(d, resetDay)
    ensures var p := MonthlyPeriod(d, resetDay);
      && (Min(resetDay, DaysInMonth(d.year, d.month)) <= d.day <==> MonthIndex(p.start) == MonthIndex(d))
      && (d.day < Min(resetDay, DaysInMonth(d.year, d.month)) <==> MonthIndex(p.start) == MonthIndex(d) - 1)
  {
  }

  /** A period is determined by the month it starts in. */
  lemma PeriodOfMonth(a: Date, b: Date, resetDay: int)
    requires IsDate(a) && IsDate(b) && 1 <= resetDay <= 31 && Regular(a, resetDay) && Regular(b, resetDay)
    requires MonthIndex(MonthlyPeriod(a, resetDay).start) == MonthIndex(MonthlyPeriod(b, resetDay).start)
    ensures MonthlyPeriod(a, resetDay) == MonthlyPeriod(b, resetDay)
  {
    hide MonthlyPeriod, ResetDate, PrevDay, DaysInMonth;
    RegularPeriod(a, resetDay);
    RegularPeriod(b, resetDay);
    AfterStart(a, resetDay);
    AfterStart(b, resetDay);
    SameMonth(MonthlyPeriod(a, resetDay).start, MonthlyPeriod(b, resetDay).start);
  }

  lemma AfterStart(today: Date, resetDay: int)
    requires IsDate(today) && today.year >= 0 && 1 <= resetDay <= 31
    ensures var p := MonthlyPeriod(today, resetDay);
      p.next == ResetDate(p.start.year, p.start.month + 1, resetDay) && p.end == PrevDay(p.next)
  {
    hide DaysInMonth, PrevDay;
  }

  lemma SameMonth(a: Date, b: Date)
    requires IsDate(a) && IsDate(b) && MonthIndex(a) == MonthIndex(b)
    ensures a.year == b.year && a.month == b.month
  {
    hide DaysInMonth;
  }

  /** Every day from the start of a period up to its successor has that same period. */
  lemma SamePeriod(today: Date, resetDay: int, d: Date)
    requires IsDate(today) && IsDate(d) && 1 <= resetDay <= 31 && Regular(today, resetDay)
    requires AtMost(MonthlyPeriod(today, resetDay).start, d) && Before(d, MonthlyPeriod(today, resetDay).next)
    ensures Regular(d, resetDay) && MonthlyPeriod(d, resetDay) == MonthlyPeriod(today, resetDay)
  {
    RegularPeriod(today, resetDay);
    var p := MonthlyPeriod(today, resetDay);
    MonthsBetween(p.start, d, p.next);
    RegularStart(d, resetDay);
    PeriodOfMonth(today, d, resetDay);
  }

  /** A day between two dates of successive months lies in one of the two months. */
  lemma MonthsBetween(a: Date, d: Date, b: Date)
    requires IsDate(a) && IsDate(b) && IsDate(d) && AtMost(a, d) && Before(d, b)
    requires MonthIndex(b) == MonthIndex(a) + 1
    ensures (d.year == a.year && d.month == a.month && a.day <= d.day)
         || (d.year == b.year && d.month == b.month && d.day < b.day)
  {
  }

  lemma NextPeriodStarts(today: Date, resetDay: int)
    requires IsDate(today) && 1 <= resetDay <= 31 && Regular(today, resetDay)
    ensures MonthlyPeriod(MonthlyPeriod(today, resetDay).next, resetDay).start == MonthlyPeriod(today, resetDay).next
  {
    RegularPeriod(today, resetDay);
    RegularPeriod(MonthlyPeriod(today, resetDay).next, resetDay);
  }

  /** On a regular date the period holds the date, and periods follow each other without gap or overlap. */
  lemma RegularTiles(today: Date, resetDay: int)
    requires IsDate(today) && 1 <= resetDay <= 31 && Regular(today, resetDay)
    ensures Tiles(today, resetDay)
  {
    var p := MonthlyPeriod(today, resetDay);
    RegularPeriod(today, resetDay);
    AfterUntil(p.end, today);
    AfterUntil(today, p.next);
    NextPeriodStarts(today, resetDay);
    forall d | IsDate(d) && AtMost(p.start, d) && Before(d, p.next)
      ensures MonthlyPeriod(d, resetDay) == p
    {
      SamePeriod(today, resetDay, d);
    }
  }

  /** Before year 100 the period starts eighteen centuries late. */
  lemma EarlyPeriodStartsLate(today: Date, resetDay: int)
    requires IsDate(today) && 0 <= today.year < 100 && 1 <= resetDay <= 31
    ensures Before(today, MonthlyPeriod(today, resetDay).start)
  {
  }

  /** At the start of year 100 the period is anchored in year 99, whose next reset is read as 2000. */
  lemma EarlyJanuaryGap(today: Date, resetDay: int)
    requires IsDate(today) && today.year == 100 && today.month == 1 && today.day < resetDay <= 31
    ensures var p := MonthlyPeriod(today, resetDay);
      && p.start == Date(99, 12, resetDay) && p.next.year == 2000
      && MonthlyPeriod(p.start, resetDay) != p
  {
    EarlyPeriodStartsLate(MonthlyPeriod(today, resetDay).start, resetDay);
  }

  /**
   Monthly periods tile the calendar exactly on the regular dates: over short months, leap years
   and year ends, for every reset day. Below year 100 (and for the tail of December 99) they do not.
   */
  lemma PeriodsTileIff(today: Date, resetDay: int)
    requires IsDate(today) && today.year >= 0 && 1 <= resetDay <= 31
    ensures Tiles(today, resetDay) <==> Regular(today, resetDay)
  {
    if Regular(today, resetDay) {
      RegularTiles(today, resetDay);
    } else if today.year < 100 {
      EarlyPeriodStartsLate(today, resetDay);
    } else {
      EarlyJanuaryGap(today, resetDay);
    }
  }

  /** A date in year 50 gets a period that starts after it. */
  lemma PeriodOfYear50()
    ensures MonthlyPeriod(Date(50, 5, 10), 1).start == Date(1950, 4, 1)
    ensures !Tiles(Date(50, 5, 10), 1)
  {
    PeriodsTileIff(Date(50, 5, 10), 1);
  }
}
