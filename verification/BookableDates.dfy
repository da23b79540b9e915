/** The days a visitor pass can be ordered for: the first open days from today on. */
module BookableDates {
  import opened Calendar

  const BOOKABLE_VISIT_DAYS := 3
  const SCAN_LIMIT := 21

  /** 0 is Sunday, as in `Date.getDay`; 1 January 1970 was a Thursday. */
  function Weekday(d: Date): (w: int)
    ensures 0 <= w < 7
  {
    (Ordinal(d) + 4) % 7
  }

  function Following(weekday: int): int {
    if weekday == 6 then 0 else weekday + 1
  }

  lemma WeekdayOfNextDay(d: Date)
    requires IsDate(d)
    ensures Weekday(NextDay(d)) == Following(Weekday(d))
  {
    NextDayOrdinal(d);
    ModStep(Ordinal(d) + 4);
  }

  lemma ModStep(n: int)
    ensures (n + 1) % 7 == Following(n % 7)
  {
  }

  /** The first of March 1972 was a Wednesday, and weekdays follow each other day by day. */
  lemma KnownWeekdays(d: Date)
    requires IsDate(d)
    ensures Weekday(Date(1972, 3, 1)) == 3 && Weekday(Date(1970, 1, 1)) == 4
    ensures Weekday(NextDay(d)) == (Weekday(d) + 1) % 7
  {
    KnownDays();
    WeekdayOfNextDay(d);
  }

  predicate Open(d: Date, closed: seq<int>) {
    Weekday(d) !in closed
  }

  function One(weekday: int, closed: seq<int>): nat {
    if weekday !in closed then 1 else 0
  }

  /** How many of the seven weekdays are open. */
  function OpenWeekdays(closed: seq<int>): nat {
    One(0, closed) + One(1, closed) + One(2, closed) + One(3, closed)
    + One(4, closed) + One(5, closed) + One(6, closed)
  }

  /** `days` days after `d`. */
  function AddDays(d: Date, days: nat): (r: Date)
    requires IsDate(d)
    ensures IsDate(r)
    decreases days, d
  {
    if days == 0 then d else AddDays(NextDay(d), days - 1)
  }

  /** The open days among the `days` days from `from` on, in order. */
  function OpenDates(from: Date, days: nat, closed: seq<int>): seq<Date>
    requires IsDate(from)
    decreases days, from
  {
    if days == 0 then []
    else (if Open(from, closed) then [from] else []) + OpenDates(NextDay(from), days - 1, closed)
  }

  /** A date is listed exactly when it is open and lies in the scanned window. */
  lemma {:induction false} OpenDatesMembers(from: Date, days: nat, closed: seq<int>, e: Date)
    requires IsDate(from) && IsDate(e)
    ensures e in OpenDates(from, days, closed)
       <==> Open(e, closed) && Ordinal(from) <= Ordinal(e) < Ordinal(from) + days
    decreases days
  {
    if days > 0 {
      OpenDatesMembers(NextDay(from), days - 1, closed, e);
      NextDayOrdinal(from);
      OrdinalOrder(from, e);
      OrdinalOrder(e, from);
    }
  }

  /** The days are listed in calendar order, none of them before the first scanned day. */
  lemma {:induction false} OpenDatesOrdered(from: Date, days: nat, closed: seq<int>)
    requires IsDate(from)
    ensures forall e :: e in OpenDates(from, days, closed) ==> IsDate(e) && AtMost(from, e)
    ensures forall i, j :: 0 <= i < j < |OpenDates(from, days, closed)| ==>
              Before(OpenDates(from, days, closed)[i], OpenDates(from, days, closed)[j])
    decreases days
  {
    if days > 0 {
      OpenDatesOrdered(NextDay(from), days - 1, closed);
      var rest := OpenDates(NextDay(from), days - 1, closed);
      assert forall j :: 0 <= j < |rest| ==> rest[j] in rest;
    }
  }

  lemma {:induction false} OpenDatesSplit(from: Date, few: nat, more: nat, closed: seq<int>)
    requires IsDate(from)
    ensures OpenDates(from, few + more, closed)
         == OpenDates(from, few, closed) + OpenDates(AddDays(from, few), more, closed)
    decreases few
  {
    hide NextDay, Weekday;
    if few > 0 {
      var next := NextDay(from);
      OpenDatesSplit(next, few - 1, more, closed);
      var head := if Open(from, closed) then [from] else [];
      assert few + more - 1 == few - 1 + more;
      assert AddDays(from, few) == AddDays(next, few - 1);
      assert OpenDates(from, few + more, closed) == head + OpenDates(next, few - 1 + more, closed);
    }
  }

  // ---------------------------------------------------------------- the scan limit

  /** The open days among `days` days that begin on weekday `w`. */
  function CountOpen(w: int, days: nat, closed: seq<int>): nat
    decreases days, closed
  {
    if days == 0 then 0 else One(w, closed) + CountOpen(Following(w), days - 1, closed)
  }

  lemma {:induction false} OpenDatesCount(from: Date, days: nat, closed: seq<int>)
    requires IsDate(from)
    ensures |OpenDates(from, days, closed)| == CountOpen(Weekday(from), days, closed)
    decreases days
  {
    if days > 0 {
      OpenDatesCount(NextDay(from), days - 1, closed);
      WeekdayOfNextDay(from);
    }
  }

  /** Any seven successive days see every weekday once. */
  lemma OneWeek(w: int, days: nat, closed: seq<int>)
    requires 0 <= w < 7
    ensures CountOpen(w, days + 7, closed) == OpenWeekdays(closed) + CountOpen(w, days, closed)
  {
    var a := Following(w);
    var b := Following(a);
    var c := Following(b);
    var d := Following(c);
    var e := Following(d);
    var f := Following(e);
    assert CountOpen(w, days + 7, closed) == One(w, closed) + CountOpen(a, days + 6, closed);
    assert CountOpen(a, days + 6, closed) == One(a, closed) + CountOpen(b, days + 5, closed);
    assert CountOpen(b, days + 5, closed) == One(b, closed) + CountOpen(c, days + 4, closed);
    assert CountOpen(c, days + 4, closed) == One(c, closed) + CountOpen(d, days + 3, closed);
    assert CountOpen(d, days + 3, closed) == One(d, closed) + CountOpen(e, days + 2, closed);
    assert CountOpen(e, days + 2, closed) == One(e, closed) + CountOpen(f, days + 1, closed);
    assert CountOpen(f, days + 1, closed) == One(f, closed) + CountOpen(w, days, closed);
  }

  lemma ThreeWeeks(w: int, days: nat, closed: seq<int>)
    requires 0 <= w < 7
    ensures CountOpen(w, days + 21, closed) == 3 * OpenWeekdays(closed) + CountOpen(w, days, closed)
  {
    hide CountOpen, OpenWeekdays;
    OneWeek(w, days + 14, closed);
    OneWeek(w, days + 7, closed);
    OneWeek(w, days, closed);
  }

  /** The scan limit holds exactly three of each open weekday. */
  lemma ScanHoldsThreeWeeks(from: Date, closed: seq<int>)
    requires IsDate(from)
    ensures |OpenDates(from, SCAN_LIMIT, closed)| == 3 * OpenWeekdays(closed)
  {
    hide OpenDates, OpenWeekdays, Weekday;
    OpenDatesCount(from, SCAN_LIMIT, closed);
    ThreeWeeks(Weekday(from), 0, closed);
  }

  lemma ScanStep(cursor: Date, days: nat, closed: seq<int>)
    requires IsDate(cursor)
    ensures days == 0 ==> OpenDates(cursor, days, closed) == []
    ensures days > 0 ==>
              OpenDates(cursor, days, closed)
              == (if Open(cursor, closed) then [cursor] else []) + OpenDates(NextDay(cursor), days - 1, closed)
  {
  }

  /** A day as the clock writes it; the year of an earlier day has fewer digits, or is read as another year. */
  predicate FourDigits(d: Date) {
    IsDate(d) && d.year >= 1000
  }

  /**
   The scanning loop returns the first `count` of the open days of the next three weeks. The limit of
   21 days cuts the list short only when more days are asked for than three weeks hold open: with
   three days it never does unless every weekday is closed.
   */
  method GetBookableVisitDates(today: Date, closed: seq<int>, count: nat) returns (dates: seq<Date>)
    requires FourDigits(today)
    ensures |dates| == Min(count, 3 * OpenWeekdays(closed))
    ensures dates <= OpenDates(today, SCAN_LIMIT, closed)
  {
    hide OpenDates, OpenWeekdays, Open, NextDay;
    dates := [];
    var cursor := today;
    var scanned := 0;
    while |dates| < count && scanned < SCAN_LIMIT
      invariant 0 <= scanned <= SCAN_LIMIT && |dates| <= count && IsDate(cursor)
      invariant OpenDates(today, SCAN_LIMIT, closed) == dates + OpenDates(cursor, SCAN_LIMIT - scanned, closed)
      decreases SCAN_LIMIT - scanned
    {
      ScanStep(cursor, SCAN_LIMIT - scanned, closed);
      if Open(cursor, closed) {
        dates := dates + [cursor];
      }
      cursor := NextDay(cursor);
      scanned := scanned + 1;
    }
    ScanStep(cursor, SCAN_LIMIT - scanned, closed);
    ScanHoldsThreeWeeks(today, closed);
  }

  // ---------------------------------------------------------------- accepting a visit date

  datatype VisitCheck = Bookable | InvalidDate | PastDate | NotBookable

  /** `isValidVisitDateString`: four digits, and `new Date` reads the years 0 to 99 as other years, so they never match. */
  predicate ValidVisitDate(d: Date) {
    IsDate(d) && 100 <= d.year <= 9999
  }

  /** How many open days lie from `today` up to, but not including, `day`. */
  function OpenBefore(today: Date, day: Date, closed: seq<int>): nat
    requires IsDate(today)
  {
    if Ordinal(day) <= Ordinal(today) then 0
    else |OpenDates(today, Ordinal(day) - Ordinal(today), closed)|
  }

  /**
   A date is accepted exactly when it is open, not past, and fewer than three open days lie before it.
   */
  method AssertVisitDateBookable(visit: Date, today: Date, closed: seq<int>) returns (check: VisitCheck)
    requires FourDigits(today)
    ensures check.InvalidDate? <==> !ValidVisitDate(visit)
    ensures check.Bookable? <==> ValidVisitDate(visit) && Open(visit, closed) && AtMost(today, visit)
                                 && OpenBefore(today, visit, closed) < BOOKABLE_VISIT_DAYS
    ensures check.PastDate? <==> ValidVisitDate(visit) && Before(visit, today)
  {
    if !ValidVisitDate(visit) {
      return InvalidDate;
    }
    var bookable := GetBookableVisitDates(today, closed, BOOKABLE_VISIT_DAYS);
    BookableIff(bookable, visit, today, closed);
    OrdinalOrder(visit, today);
    OrdinalOrder(today, visit);
    if visit in bookable {
      return Bookable;
    }
    if Before(visit, today) {
      return PastDate;
    }
    return NotBookable;
  }

  lemma BookableIff(bookable: seq<Date>, visit: Date, today: Date, closed: seq<int>)
    requires IsDate(today) && IsDate(visit)
    requires |bookable| == Min(BOOKABLE_VISIT_DAYS, 3 * OpenWeekdays(closed))
    requires bookable <= OpenDates(today, SCAN_LIMIT, closed)
    ensures visit in bookable <==> Open(visit, closed) && AtMost(today, visit)
                                   && OpenBefore(today, visit, closed) < BOOKABLE_VISIT_DAYS
  {
    hide OpenDates, OpenWeekdays, Weekday, Ordinal;
    var all := OpenDates(today, SCAN_LIMIT, closed);
    OpenDatesMembers(today, SCAN_LIMIT, closed, visit);
    OrdinalOrder(today, visit);
    if Open(visit, closed) && Ordinal(today) <= Ordinal(visit) {
      var offset := Ordinal(visit) - Ordinal(today);
      SomeWeekdayOpen(visit, closed);
      if offset < SCAN_LIMIT {
        PositionInScan(today, visit, closed);
        OpenDatesOrdered(today, SCAN_LIMIT, closed);
      } else {
        OpenDatesSplit(today, SCAN_LIMIT, offset - SCAN_LIMIT, closed);
        ScanHoldsThreeWeeks(today, closed);
      }
    }
  }

  /** An open day stands in the list after exactly the open days before it. */
  lemma PositionInScan(today: Date, visit: Date, closed: seq<int>)
    requires IsDate(today) && IsDate(visit) && Open(visit, closed)
    requires 0 <= Ordinal(visit) - Ordinal(today) < SCAN_LIMIT
    ensures var all, k := OpenDates(today, SCAN_LIMIT, closed), OpenBefore(today, visit, closed);
      k < |all| && all[k] == visit
  {
    hide Ordinal, Weekday, NextDay;
    var offset := Ordinal(visit) - Ordinal(today);
    OpenDatesSplit(today, offset, SCAN_LIMIT - offset, closed);
    AddDaysOrdinal(today, offset);
    OrdinalOrder(AddDays(today, offset), visit);
    OrdinalOrder(visit, AddDays(today, offset));
  }

  lemma {:induction false} AddDaysOrdinal(d: Date, days: nat)
    requires IsDate(d)
    ensures Ordinal(AddDays(d, days)) == Ordinal(d) + days
    decreases days
  {
    if days > 0 {
      NextDayOrdinal(d);
      AddDaysOrdinal(NextDay(d), days - 1);
    }
  }

  lemma SomeWeekdayOpen(d: Date, closed: seq<int>)
    requires Open(d, closed)
    ensures OpenWeekdays(closed) >= 1
  {
    var w := Weekday(d);
    assert w == 0 || w == 1 || w == 2 || w == 3 || w == 4 || w == 5 || w == 6;
  }
}
