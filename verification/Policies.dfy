/** Payment terms: when an unpaid booking is warned about and overdue, and what being overdue costs its profile. */
module Policies {
  import opened Calendar
  import opened Results
  import opened Segments
  import opened Catalog
  import opened Records
  import opened Hours
  import opened Bookings
  import opened Payments
  import opened Machine
  import opened Examples

  /** By invoice: overdue at the earlier of the end of its term, an hour at least, and the lead before the booking starts. */
  lemma InvoiceTimeline(made: nat, date: Date, start: int, terms: InvoiceTerms, now: int)
    ensures var policy := PaymentPolicy(Invoice, made, date, start, terms);
      var begins := StartOf(date) + start * 60000;
      && (Lateness(policy, now) == Overdue <==>
            || now >= Second(made) + Max(1, terms.ttlHours) * HOUR_MS
            || now >= begins - Max(0, terms.leadHours) * HOUR_MS)
      && Lateness(policy, now) in {Active, Overdue} && (now >= begins ==> Lateness(policy, now) == Overdue)
  {
    LeadPositive(terms);
  }

  lemma LeadPositive(terms: InvoiceTerms)
    ensures Max(0, terms.leadHours) * HOUR_MS >= 0
  {
  }

  /** No modelled step takes back the demand of a prepayment. */
  lemma StepKeepsPrepay(db: Db, e: Event)
    ensures db.prepay <= Step(db, e).prepay
  {
    hide Body;
    if e.Run? && Execute(db, e.command).Ok? {
      BodyKeepsEnvironment(Fenced(db), e.command);
    }
  }

  lemma {:induction false} PrepayGrows(db: Db, events: seq<Event>)
    ensures db.prepay <= After(db, events).prepay
  {
    if events != [] {
      PrepayGrows(db, events[..|events| - 1]);
      hide Step;
      StepKeepsPrepay(After(db, events[..|events| - 1]), events[|events| - 1]);
    }
  }

  /**
   Once the worker has found a postpaid booking of a profile overdue, every booking of that profile that
   is to be paid by cash, invoice or later is refused, in every run, if its request reads the demands after
   the worker's commit; it changes nothing.
   */
  lemma OverdueDemandsPrepayment(db: Db, id: nat, events: seq<Event>, more: seq<Event>, listing: Listing,
                                 input: QuoteInput, party: Party, terms: InvoiceTerms, ahead: Ahead)
    requires id in db.bookings && db.bookings[id].status != Cancelled && db.bookings[id].payment != Paid
    requires db.writable && db.bookings[id].profile.Some? && party.profile == db.bookings[id].profile
    requires var policy := db.bookings[id].policy;
      policy.kind == PostpayPolicy && policy.state != Overdue && policy.dueAt <= db.now
    requires PayLater(input.payBy)
    requires ReadAt(ahead, After(Step(db, Run(TickPolicy(id, db.bookings[id].policy))), events))
    ensures var read := After(Step(db, Run(TickPolicy(id, db.bookings[id].policy))), events);
      var later := After(read, more);
      && (later.writable ==> Execute(later, CreateBooking(listing, input, party, terms, ahead)) == Err(PrepayRequired))
      && Step(later, Run(CreateBooking(listing, input, party, terms, ahead))) == later
  {
    var ticked := Step(db, Run(TickPolicy(id, db.bookings[id].policy)));
    assert db.bookings[id].profile.value in ticked.prepay;
    PrepayGrows(ticked, events);
    hide After, MakeQuote, Open;
  }

  /**
   A demand that a request has not read does not refuse it: what `create` answers, and what it writes but
   for the demands themselves, is the same whatever the demands are by the time of its transaction.
   */
  lemma UnreadDemandIgnored(db: Db, prepay: set<nat>, listing: Listing, input: QuoteInput, party: Party,
                            terms: InvoiceTerms, ahead: Ahead)
    ensures var before, after := Create(db, listing, input, party, terms, ahead),
                                 Create(db.(prepay := prepay), listing, input, party, terms, ahead);
      && (before.Ok? <==> after.Ok?) && (before.Err? ==> after == before)
      && (before.Ok? ==> after.value == before.value.(prepay := prepay))
  {
    hide Prepare, InitialPayment, NewBooking;
    var prepared := Prepare(listing, input, party, ahead);
    if prepared.Ok? {
      var q := prepared.value;
      OpenIgnoresDemands(db, prepay, q, InitialPayment(input.payBy, q.total, party.guest, db.now), party, terms);
    }
  }

  lemma OpenIgnoresDemands(db: Db, prepay: set<nat>, q: Quote, o: Opening, party: Party, terms: InvoiceTerms)
    ensures var before, after := Open(db, q, o, party, terms), Open(db.(prepay := prepay), q, o, party, terms);
      && (before.Ok? <==> after.Ok?) && (before.Err? ==> after == before)
      && (before.Ok? ==> after.value == before.value.(prepay := prepay))
  {
    hide OpeningHours, Conflict, Touched, Days, NewBooking;
    var locked := if o.status == GuestRequest then db else LockDays(db, q.room, q.segments);
    OpeningIgnoresDemands(locked, prepay, q, o, party, db.nextBooking);
  }

  /** The outcome of a step on the store with other demands, when the step does not look at them. */
  function WithDemands(r: Result<Db>, prepay: set<nat>): Result<Db> {
    match r case Ok(d) => Ok(d.(prepay := prepay)) case Err(e) => Err(e)
  }

  lemma OpeningIgnoresDemands(db: Db, prepay: set<nat>, q: Quote, o: Opening, party: Party, id: nat)
    ensures OpeningHours(db.(prepay := prepay), q, o, party, id) == WithDemands(OpeningHours(db, q, o, party, id), prepay)
  {
    hide ChangeHours, Ensure, Available, Today;
    if party.resource.Some? {
      HoursIgnoreDemands(db, prepay, party.resource.value, -q.writeoff, Some(id));
    }
  }

  lemma HoursIgnoreDemands(db: Db, prepay: set<nat>, resource: nat, delta: int, booking: Option<nat>)
    ensures var d := db.(prepay := prepay);
      && Ensure(d, resource) == WithDemands(Ensure(db, resource), prepay)
      && ChangeHours(d, resource, delta, booking) == WithDemands(ChangeHours(db, resource, delta, booking), prepay)
  {
    hide EnsureAccount, Today, Spent, Available, Net;
  }

  // ---------------------------------------------------------------- the race

  const GUESTLESS := Party(None, Some(5), false)
  const FIRST := CreateBooking(HALL, Hour(SOON, Postpay), GUESTLESS, TERMS, Ahead(0, {}, None))
  const SECOND := CreateBooking(HALL, Hour(LATER, Postpay), GUESTLESS, TERMS, Ahead(WEEK_ON, {}, None))

  /** A booking without hours, made by somebody who is no guest, in a room nobody has taken at that time. */
  lemma OpenPlain(db: Db, q: Quote, o: Opening, party: Party, terms: InvoiceTerms)
    requires q.writeoff == 0 && o.status != GuestRequest && o.status != Hold
    requires !Conflict(db.bookings, db.now, q.room, q.segments, None)
    ensures Open(db, q, o, party, terms)
         == Ok(PutBooking(LockDays(db, q.room, q.segments), db.nextBooking, NewBooking(q, o, party, 0, db.now, terms))
                 .(nextBooking := db.nextBooking + 1))
  {
    hide Conflict, Touched, Days, NewBooking;
  }

  /** The first booking of the race, as it is stored. */
  lemma FirstMade()
    ensures var made := Step(Empty(0), Run(FIRST));
      && made.bookings.Keys == {1} && made.writable && made.now == 0 && made.prepay == {} && made.nextBooking == 2
      && var b := made.bookings[1];
         && b.quote == HourQuote(SOON) && b.profile == Some(5) && b.status == AwaitingPayment && b.payment == PostpayOpen
         && b.policy == Policy(PostpayPolicy, 3 * DAY_MS, 7 * DAY_MS, Active)
  {
    SlotsAhead();
    HourQuoted(SOON, Postpay);
    hide MakeQuote, AnyInPast, Touched, Days, HourQuote;
    var start, q := Fenced(Empty(0)), HourQuote(SOON);
    assert Prepare(HALL, Hour(SOON, Postpay), GUESTLESS, Ahead(0, {}, None)) == Ok(q);
    OpenPlain(start, q, InitialPayment(Postpay, q.total, false, 0), GUESTLESS, TERMS);
  }

  /** The worker's step on it, a week later. */
  lemma FirstOverdue(waited: Db)
    requires waited.bookings.Keys == {1} && waited.writable && waited.now == WEEK_ON
    requires var b := waited.bookings[1];
      && b.quote == HourQuote(SOON) && b.profile == Some(5) && b.status == AwaitingPayment && b.payment == PostpayOpen
      && b.policy == Policy(PostpayPolicy, 3 * DAY_MS, 7 * DAY_MS, Active)
    ensures var ticked := Step(waited, Run(TickPolicy(1, waited.bookings[1].policy)));
      && ticked.bookings.Keys == {1} && ticked.bookings[1].quote == HourQuote(SOON) && 5 in ticked.prepay
      && ticked.writable && ticked.nextBooking == waited.nextBooking && ticked.now == waited.now
  {
    hide HourQuote;
  }

  /** A request that read no demand is accepted whatever the demands have become. */
  lemma SecondAccepted(db: Db)
    requires db.bookings.Keys == {1} && db.bookings[1].quote == HourQuote(SOON) && db.writable && db.nextBooking == 2
    ensures Execute(db, SECOND).Ok? && Execute(db, SECOND).value.prepay == db.prepay
    ensures var after := Execute(db, SECOND).value;
      2 in after.bookings && after.bookings[2].profile == Some(5) && after.bookings[2].payBy == Postpay
  {
    SlotsAhead();
    HourQuoted(LATER, Postpay);
    hide MakeQuote, AnyInPast, Touched, Days, NewBooking, HourQuote;
    var start, q := Fenced(db), HourQuote(LATER);
    assert Prepare(HALL, Hour(LATER, Postpay), GUESTLESS, SECOND.ahead) == Ok(q);
    OtherDay(start.bookings, start.now);
    OpenPlain(start, q, InitialPayment(Postpay, q.total, false, start.now), GUESTLESS, TERMS);
    SecondParty(q, start.now);
  }

  /**
   The race that is left open: a request reads no demand, the worker commits one, and the request's
   transaction then stores a booking of the same profile to be paid later.
   */
  lemma DemandRaced()
    ensures var waited := Step(Step(Empty(0), Run(FIRST)), Wait(WEEK_ON));
      && 1 in waited.bookings && ReadAt(SECOND.ahead, waited)
      && var ticked := Step(waited, Run(TickPolicy(1, waited.bookings[1].policy)));
         && 5 in ticked.prepay && Execute(ticked, SECOND).Ok?
         && var after := Execute(ticked, SECOND).value;
            2 in after.bookings && after.bookings[2].profile == Some(5) && after.bookings[2].payBy == Postpay
            && 5 in after.prepay
  {
    hide Execute, HourQuote;
    FirstMade();
    var waited := Step(Step(Empty(0), Run(FIRST)), Wait(WEEK_ON));
    FirstOverdue(waited);
    SecondAccepted(Step(waited, Run(TickPolicy(1, waited.bookings[1].policy))));
  }

  lemma OtherDay(bookings: map<nat, Booking>, now: nat)
    requires bookings.Keys == {1} && bookings[1].quote == HourQuote(SOON)
    ensures !Conflict(bookings, now, 1, [Slot(LATER)], None)
  {
    assert forall i, j :: 0 <= i < |[Slot(SOON)]| && 0 <= j < |[Slot(LATER)]| ==>
             !Overlap([Slot(SOON)][i], [Slot(LATER)][j]);
  }

  lemma SecondParty(q: Quote, now: nat)
    ensures var b := NewBooking(q, InitialPayment(Postpay, 60000, false, now), GUESTLESS, 0, now, TERMS);
      b.profile == Some(5) && b.payBy == Postpay
  {
    hide PolicyFor;
  }
}
