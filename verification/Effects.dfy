/** What a successful operation leaves behind: hours, money and occupied time together. */
module Effects {
  import opened Calendar
  import opened Results
  import opened Segments
  import opened Catalog
  import opened Records
  import opened Hours
  import opened Bookings
  import opened Machine
  import opened Invariants

  /** The booking has its time for itself. */
  predicate HasTime(db: Db, id: nat, room: int, segments: seq<Segment>) {
    !Conflict(db.bookings, db.now, room, segments, Some(id))
  }

  // ---------------------------------------------------------------- a new booking

  /**
   A new booking takes the next id, blocks its time at once unless it is a guest's request, and then had
   it for itself; its hours are debited at once, except those of a hold, and no money is recorded.
   */
  lemma CreateOpens(db: Db, listing: Listing, input: QuoteInput, party: Party, terms: InvoiceTerms, ahead: Ahead)
    requires Inv(db) && Create(db, listing, input, party, terms, ahead).Ok?
    ensures var after := Create(db, listing, input, party, terms, ahead).value;
      var id := db.nextBooking;
      && Inv(after) && id !in db.bookings && id in after.bookings && after.payments == db.payments
      && after.bookings.Keys == db.bookings.Keys + {id}
      && var b := after.bookings[id];
         && (Blocks(b, db.now) <==> !party.guest)
         && (Blocks(b, db.now) ==> HasTime(db, id, b.quote.room, b.quote.segments))
         && (b.resource.Some? ==> Net(after.ledger, id, b.resource.value)
                                  == if b.status == Hold then 0 else b.quote.writeoff)
         && (b.resource.None? ==> b.quote.writeoff == 0)
         && (b.payment == Paid <==> !party.guest && b.quote.total == 0)
  {
    var q := MakeQuote(listing, input, 0).value;
    var o := InitialPayment(input.payBy, q.total, party.guest, db.now);
    FreshId(db);
    CreateInv(db, listing, input, party, terms, ahead);
    CreateUnfolds(db, listing, input, party, terms, ahead, q, o);
    hide Create, Inv, MakeQuote, Conflict;
    OpenEffect(db, q, o, party, terms);
    Stored(Open(db, q, o, party, terms).value, db.nextBooking);
    OpeningBlocks(q, input.payBy, party, db.now, terms);
    ConflictExcept(db.bookings, db.now, q.room, q.segments, db.nextBooking);
  }

  lemma CreateUnfolds(db: Db, listing: Listing, input: QuoteInput, party: Party, terms: InvoiceTerms, ahead: Ahead,
                      q: Quote, o: Opening)
    requires Create(db, listing, input, party, terms, ahead).Ok? && q == MakeQuote(listing, input, 0).value
    requires o == InitialPayment(input.payBy, q.total, party.guest, db.now)
    ensures Create(db, listing, input, party, terms, ahead) == Open(db, q, o, party, terms)
  {
    hide MakeQuote, Open, AnyInPast, InitialPayment;
  }

  lemma OpenEffect(db: Db, q: Quote, o: Opening, party: Party, terms: InvoiceTerms)
    requires Open(db, q, o, party, terms).Ok?
    ensures var after := Open(db, q, o, party, terms).value;
      && after.bookings == db.bookings[db.nextBooking :=
           NewBooking(q, o, party, if o.status == Hold then 0 else q.writeoff, db.now, terms)]
      && after.payments == db.payments && (party.resource.None? ==> q.writeoff == 0)
      && (o.status != GuestRequest ==> !Conflict(db.bookings, db.now, q.room, q.segments, None))
  {
    hide ChangeHours, Ensure, Available, Conflict, Touched, Days, NewBooking;
    var locked := if o.status == GuestRequest then db else LockDays(db, q.room, q.segments);
    if party.resource.Some? {
      HoursKeepOthers(locked, party.resource.value, -q.writeoff, Some(db.nextBooking));
    }
  }

  lemma HoursKeepOthers(db: Db, resource: nat, delta: int, booking: Option<nat>)
    ensures Ensure(db, resource).Ok? ==>
              var d := Ensure(db, resource).value; d == db.(accounts := d.accounts, ledger := d.ledger)
    ensures ChangeHours(db, resource, delta, booking).Ok? ==>
              var d := ChangeHours(db, resource, delta, booking).value;
              d == db.(accounts := d.accounts, ledger := d.ledger)
  {
    hide EnsureAccount, Today, SpentSince, Available, Net;
  }

  lemma OpeningBlocks(q: Quote, payBy: Method, party: Party, now: nat, terms: InvoiceTerms)
    ensures var o := InitialPayment(payBy, q.total, party.guest, now);
      var b := NewBooking(q, o, party, if o.status == Hold then 0 else q.writeoff, now, terms);
      && (Blocks(b, now) <==> !party.guest) && (o.status == GuestRequest <==> party.guest)
      && (b.payment == Paid <==> !party.guest && q.total == 0)
  {
    hide PolicyFor;
  }

  // ---------------------------------------------------------------- a payment taken by hand

  /**
   A payment taken by hand makes the payments of the booking cover its total exactly, or leaves them when
   they cover it already; the booking keeps blocking, and a confirmed one stays confirmed, if and only if
   its time is free.
   */
  lemma ManualPaymentCovers(db: Db, id: nat, revision: int)
    requires Inv(db) && MarkPaid(db, id, revision).Ok? && db.bookings[id].payment != Paid
    ensures var after := MarkPaid(db, id, revision).value;
      var b := db.bookings[id];
      && PaidAmount(after.payments, id) == Max(PaidAmount(db.payments, id), b.quote.total)
      && after.bookings[id].payment == Paid && after.ledger == db.ledger
      && (Blocks(after.bookings[id], db.now) <==> HasTime(db, id, b.quote.room, b.quote.segments))
      && (b.status == Confirmed && HasTime(db, id, b.quote.room, b.quote.segments) ==>
            after.bookings[id].status == Confirmed)
      && (after.bookings[id].attention <==> !HasTime(db, id, b.quote.room, b.quote.segments))
  {
    hide Inv, Conflict, PaidAmount, Touched, Days;
    var b := db.bookings[id];
    var p := Payment(id, None, Max(0, b.quote.total - PaidAmount(db.payments, id)), PaidIn);
    PaidAppend(db.payments, p, id);
  }

  // ---------------------------------------------------------------- an edit, a transfer, an extension

  /**
   A change leaves the booking with its new quote and exactly the hours of it debited, in time it has for
   itself; money is not moved, and it is paid if and only if the payments so far cover the new total. A
   booking that is not covered waits for payment; one that was in conflict is in conflict no more.
   */
  lemma ChangeRebalances(db: Db, id: nat, b: Booking, q: Quote, payBy: Method, terms: InvoiceTerms)
    requires Inv(db) && id in db.bookings && db.bookings[id] == b && QuoteOk(q) && Changeable(b.status)
    requires ApplyChange(db, id, b, q, payBy, terms).Ok?
    ensures var after := ApplyChange(db, id, b, q, payBy, terms).value;
      && Inv(after) && id in after.bookings && after.payments == db.payments
      && var c := after.bookings[id];
         var covered := PaidAmount(db.payments, id) >= q.total;
         && c.quote == q && HasTime(db, id, q.room, q.segments)
         && (b.resource.Some? ==> Net(after.ledger, id, b.resource.value) == q.writeoff)
         && (b.resource.None? ==> q.writeoff == 0)
         && (c.payment == Paid <==> covered) && (c.status == AwaitingPayment <== !covered)
         && c.status != AwaitingResolution && Blocks(c, db.now)
  {
    hide Inv, Conflict, PaidAmount, Touched, Days, Net;
    ApplyChangeInv(db, id, b, q, payBy, terms);
    Stored(db, id);
    Stored(ApplyChange(db, id, b, q, payBy, terms).value, id);
    ChangeParts(db, id, b, q, payBy, terms);
  }

  lemma ChangeParts(db: Db, id: nat, b: Booking, q: Quote, payBy: Method, terms: InvoiceTerms)
    requires ApplyChange(db, id, b, q, payBy, terms).Ok? && id in db.bookings
    ensures var after := ApplyChange(db, id, b, q, payBy, terms).value;
      && id in after.bookings && after.payments == db.payments
      && after.bookings[id]
         == ChangedBooking(b, q, payBy, PaidAmount(db.payments, id), PolicyFor(q, payBy, db.now, terms))
      && !Conflict(db.bookings, db.now, q.room, q.segments, Some(id))
  {
    hide Conflict, PaidAmount, Touched, Days, AdjustHours, MethodAllowed, ChangedBooking, PolicyFor;
    var locked := LockDays(LockDays(db, b.quote.room, b.quote.segments), q.room, q.segments);
    AdjustKeepsOthers(locked, id, b, q.writeoff);
  }

  lemma AdjustKeepsOthers(db: Db, id: nat, b: Booking, writeoff: int)
    requires AdjustHours(db, id, b, writeoff).Ok?
    ensures var d := AdjustHours(db, id, b, writeoff).value; d == db.(accounts := d.accounts, ledger := d.ledger)
  {
    hide ChangeHours, Refundable;
    var delta := writeoff - Refundable(db, id, b);
    if b.resource.Some? {
      HoursKeepOthers(db, b.resource.value, -delta, Some(id));
      HoursKeepOthers(db, b.resource.value, Min(-delta, Refundable(db, id, b)), Some(id));
    }
  }
}
