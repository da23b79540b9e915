/** One small room and the requests that are made for it where a claim needs a concrete input. */
module Examples {
  import opened Calendar
  import opened Results
  import opened Segments
  import opened Catalog
  import opened Bookings

  const HALL_CONFIG := RoomConfig(60000, true, 300000, 30, 0, 1440)

  /** A room let by the hour, and the same listing after the room has been withdrawn. */
  const HALL := Listing(1, map[1 := Room(true, true, false, HALL_CONFIG)], map[])
  const WITHDRAWN := Listing(2, map[1 := Room(false, true, false, HALL_CONFIG)], map[])
  const TERMS := InvoiceTerms(72, 6)

  /** Two days that requests are made for, and a moment between them, a week after the first. */
  const SOON := Date(1970, 1, 2)
  const LATER := Date(1970, 1, 20)
  const WEEK_ON := 8 * DAY_MS

  /** The first day of the clock and its accrual period. */
  lemma DayZero()
    ensures Today(0) == Date(1970, 1, 1)
    ensures MonthlyPeriod(Date(1970, 1, 1), 1) == Period(Date(1970, 1, 1), Date(1970, 1, 31), Date(1970, 2, 1))
  {
  }

  function Slot(day: Date): Segment {
    Segment(day, 600, 660)
  }

  /** An hour of the hall. */
  function Hour(day: Date, payBy: Method): QuoteInput {
    QuoteInput(1, [Slot(day)], false, payBy, 0, [])
  }

  function HourQuote(day: Date): (q: Quote)
    ensures q.total == 60000 && q.writeoff == 0 && q.room == 1 && q.segments == [Slot(day)]
  {
    Quote(1, false, [Slot(day)], 60, [], 60000, 0, 0, 60000, 0)
  }

  lemma SlotNormal(day: Date)
    requires IsDate(day)
    ensures Normalize([Slot(day)], 30) == Ok([Slot(day)]) && Duration([Slot(day)]) == 60
  {
    var s := [Slot(day)];
    assert s[..0] == [] && s[0] == Slot(day);
    assert Sort(s) == s;
  }

  lemma HourQuoted(day: Date, payBy: Method)
    requires IsDate(day) && payBy !in {Balance, NoMethod}
    ensures MakeQuote(HALL, Hour(day, payBy), 0) == Ok(HourQuote(day))
    ensures MakeQuote(WITHDRAWN, Hour(day, payBy), 0) == Err(NotFound)
  {
    hide Normalize, Duration, Selected, ServicesTotal, IsDate;
    SlotNormal(day);
    NoServices();
  }

  /** The same hour, paid with an hour of a resident's. */
  function HoursQuote(day: Date): (q: Quote)
    ensures q.total == 0 && q.writeoff == 60 && q.room == 1 && q.segments == [Slot(day)]
  {
    Quote(1, false, [Slot(day)], 60, [], 60000, 0, 60000, 0, 60)
  }

  lemma HoursQuoted(day: Date)
    requires IsDate(day)
    ensures MakeQuote(HALL, Hour(day, Balance), 0) == Ok(HoursQuote(day))
  {
    hide Normalize, Duration, Selected, ServicesTotal, IsDate;
    SlotNormal(day);
    NoServices();
  }

  lemma NoServices()
    ensures Selected(HALL, 1, 60, []) == Ok([]) && ServicesTotal([]) == 0
  {
  }

  lemma SlotsAhead()
    ensures IsDate(SOON) && IsDate(LATER) && !AnyInPast([Slot(SOON)], 0) && !AnyInPast([Slot(LATER)], WEEK_ON)
  {
  }

  /**
   The mark of a price leaves out whether a room is let by the day: the same hour of the hall has one mark by
   the hour and by the day, and two prices.
   */
  lemma MarkMissesMode()
    ensures var byHour, byDay := MakeQuote(HALL, Hour(SOON, Cash), 0), MakeQuote(HALL, Hour(SOON, Cash).(dayOffice := true), 0);
      && byHour.Ok? && byDay.Ok? && MarkOf(HALL, byHour.value) == MarkOf(HALL, byDay.value)
      && byHour.value.total == 60000 && byDay.value.total == 300000
  {
    SlotsAhead();
    HourQuoted(SOON, Cash);
    SlotNormal(SOON);
    OneDay();
    NoServices();
    hide Normalize, Duration, Selected, ServicesTotal, IsDate, Days;
  }

  lemma OneDay()
    ensures |Days([Slot(SOON)])| == 1
  {
    var s := [Slot(SOON)];
    assert s[0].date == SOON;
    assert Days(s) == {SOON};
  }
}
