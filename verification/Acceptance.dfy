/** Exactly when an operation succeeds: every refusal has a reason a caller can see beforehand. */
module Acceptance {
  import opened Calendar
  import opened Results
  import opened Segments
  import opened Catalog
  import opened Records
  import opened Hours
  import opened Bookings
  import opened Payments
  import opened Invariants
  import opened Effects

  /** The account an operation finds once it has been brought up to date. */
  function UpToDate(db: Db, resource: nat): (a: Account)
    requires resource in db.profiles
  {
    EnsureAccount(AccountOf(db, resource), db.profiles[resource], Today(db.now), SpentSince(db, resource)).account
  }

  predicate CanSpend(db: Db, resource: Option<nat>, amount: int) {
    && resource.Some? && resource.value in db.profiles
    && amount <= Available(UpToDate(db, resource.value), Today(db.now))
  }

  /** Giving back is refused only when the owner is gone, or the balance would pass the largest safe integer. */
  predicate CanReceive(db: Db, resource: Option<nat>, amount: int) {
    && resource.Some? && resource.value in db.profiles
    && UpToDate(db, resource.value).balance + amount <= MAX_SAFE
  }

  lemma EnsureGives(db: Db, resource: nat)
    ensures Ensure(db, resource).Ok? <==> resource in db.profiles
    ensures Ensure(db, resource).Ok? ==>
              var d := Ensure(db, resource).value;
              resource in d.accounts && d.accounts[resource] == UpToDate(db, resource) && d.now == db.now
  {
    hide EnsureAccount, Today, SpentSince;
    if resource in db.profiles {
      AbsentMeansRow(db, resource);
    }
  }

  lemma AbsentMeansRow(db: Db, resource: nat)
    requires resource in db.profiles
    ensures var e := EnsureAccount(AccountOf(db, resource), db.profiles[resource], Today(db.now),
                                   SpentSince(db, resource));
      e.row.None? ==> resource in db.accounts && e.account == db.accounts[resource]
  {
    hide Today, SpentSince, MonthlyPeriod;
  }

  /** A debit leaves a safe integer, as the source checks at every movement. */
  predicate StaysSafe(db: Db, resource: Option<nat>, amount: int) {
    resource.Some? && resource.value in db.profiles ==> UpToDate(db, resource.value).balance - amount <= MAX_SAFE
  }

  /** Hours are debited exactly when the owner can spend them. */
  lemma DebitIff(db: Db, resource: nat, amount: int, booking: Option<nat>)
    requires amount > 0
    ensures ChangeHours(db, resource, -amount, booking).Ok? <==>
              CanSpend(db, Some(resource), amount) && StaysSafe(db, Some(resource), amount)
  {
    hide Ensure, EnsureAccount, Today, UpToDate;
    EnsureGives(db, resource);
  }

  lemma CreditIff(db: Db, resource: nat, amount: int, booking: Option<nat>)
    requires LedgerInv(db) && amount > 0
    ensures ChangeHours(db, resource, amount, booking).Ok? <==> CanReceive(db, Some(resource), amount)
  {
    EnsureGives(db, resource);
    hide Ensure, EnsureAccount, Today, UpToDate, LedgerInv, Available;
    if resource in db.profiles {
      EnsureFacts(db, resource);
      AccountNonNegative(Ensure(db, resource).value, resource);
    }
  }

  // ---------------------------------------------------------------- the operations

  /** The hours can be spent; a hold only has them looked at. */
  predicate SpendsNowOrLater(db: Db, q: Quote, o: Opening, party: Party) {
    CanSpend(db, party.resource, q.writeoff) && (o.status == Hold || StaysSafe(db, party.resource, q.writeoff))
  }

  /** A priced request is opened if and only if its time is free, unless it is a guest's, and its hours can be spent. */
  lemma OpenIff(db: Db, q: Quote, payBy: Method, party: Party, terms: InvoiceTerms)
    requires q.writeoff >= 0
    ensures Open(db, q, InitialPayment(payBy, q.total, party.guest, db.now), party, terms).Ok? <==>
              && (party.guest || !Conflict(db.bookings, db.now, q.room, q.segments, None))
              && (q.writeoff == 0 || SpendsNowOrLater(db, q, InitialPayment(payBy, q.total, party.guest, db.now), party))
  {
    hide ChangeHours, Ensure, EnsureAccount, Conflict, Touched, Days, NewBooking, Today, Available, SpendsNowOrLater;
    var o := InitialPayment(payBy, q.total, party.guest, db.now);
    var locked := if o.status == GuestRequest then db else LockDays(db, q.room, q.segments);
    hide InitialPayment;
    GuestOpening(q, payBy, party, db.now);
    if q.writeoff > 0 && party.resource.Some? {
      OpeningHoursIff(locked, q, o, party, db.nextBooking);
      SpendIgnoresRooms(db, locked, q, o, party);
    }
    NoSpendWithoutOwner(db, q, o, party);
  }

  lemma GuestOpening(q: Quote, payBy: Method, party: Party, now: nat)
    ensures InitialPayment(payBy, q.total, party.guest, now).status == GuestRequest <==> party.guest
  {
  }

  lemma NoSpendWithoutOwner(db: Db, q: Quote, o: Opening, party: Party)
    ensures party.resource.None? ==> !SpendsNowOrLater(db, q, o, party)
  {
  }

  lemma SpendIgnoresRooms(db: Db, locked: Db, q: Quote, o: Opening, party: Party)
    requires locked == db.(roomDays := locked.roomDays)
    ensures SpendsNowOrLater(locked, q, o, party) <==> SpendsNowOrLater(db, q, o, party)
  {
    hide EnsureAccount, Today, Available, Spent;
  }

  lemma OpeningHoursIff(db: Db, q: Quote, o: Opening, party: Party, id: nat)
    requires q.writeoff > 0 && party.resource.Some?
    ensures OpeningHours(db, q, o, party, id).Ok? <==> SpendsNowOrLater(db, q, o, party)
  {
    hide ChangeHours, Ensure, UpToDate, Today, Available;
    EnsureGives(db, party.resource.value);
    DebitIff(db, party.resource.value, q.writeoff, Some(id));
  }

  /**
   A booking is confirmed if and only if the caller is up to date, it is live, paid or postpaid, its hours
   are debited and its time is free.
   */
  lemma ConfirmIff(db: Db, id: nat, revision: int)
    requires Inv(db)
    ensures Confirm(db, id, revision).Ok? <==>
              && id in db.bookings && revision >= 1 && revision == db.bookings[id].revision
              && db.bookings[id].status !in {Cancelled, Blocked}
              && (db.bookings[id].payBy == Postpay || db.bookings[id].payment == Paid)
              && db.bookings[id].quote.writeoff <= db.bookings[id].hoursDebited
              && HasTime(db, id, db.bookings[id].quote.room, db.bookings[id].quote.segments)
  {
    hide Inv, Conflict, Refundable, Touched, Days;
    if id in db.bookings {
      RefundableIsRecorded(db, id);
    }
  }

  /** Cancelling a live booking succeeds if and only if it has no hours to give back, or its owner can receive them. */
  lemma CancelIff(db: Db, id: nat)
    requires Inv(db) && id in db.bookings && db.bookings[id].status != Cancelled
    ensures CancelInTransaction(db, id, db.bookings[id]).Ok? <==>
              || db.bookings[id].hoursDebited == 0
              || CanReceive(db, db.bookings[id].resource, db.bookings[id].hoursDebited)
  {
    hide Inv, ChangeHours, Refundable, PaidAmount, Touched, Days, CanReceive, LedgerInv;
    var b := db.bookings[id];
    RefundableIsRecorded(db, id);
    Stored(db, id);
    var locked := LockDays(db, b.quote.room, b.quote.segments);
    RefundableKept(db, locked, id, b);
    NoReceiver(db, b.resource, b.hoursDebited);
    if b.resource.Some? && b.hoursDebited > 0 {
      LedgerInvFrame(db, locked);
      CreditIff(locked, b.resource.value, b.hoursDebited, Some(id));
      ReceiveIgnoresRooms(db, locked, b.resource, b.hoursDebited);
    }
  }

  lemma RefundableKept(db: Db, locked: Db, id: nat, b: Booking)
    requires locked.ledger == db.ledger
    ensures Refundable(locked, id, b) == Refundable(db, id, b)
  {
    hide Net;
  }

  lemma NoReceiver(db: Db, resource: Option<nat>, amount: int)
    ensures resource.None? ==> !CanReceive(db, resource, amount)
  {
  }

  lemma ReceiveIgnoresRooms(db: Db, locked: Db, resource: Option<nat>, amount: int)
    requires locked == db.(roomDays := locked.roomDays)
    ensures CanReceive(locked, resource, amount) <==> CanReceive(db, resource, amount)
  {
    hide EnsureAccount, Today, Spent;
  }

  /**
   A payment that arrived is recorded unless hours held back are due, the booking is fully paid and has its
   time, and the owner of the hours is gone: too few hours never keep money from being recorded.
   */
  lemma PaymentRecordedIff(db: Db, p: nat, id: nat)
    requires Inv(db) && p < |db.payments| && id in db.bookings
    ensures var b := db.bookings[id];
      var missing := b.quote.writeoff - b.hoursDebited;
      var due := && b.status != Cancelled && HasTime(db, id, b.quote.room, b.quote.segments)
                 && PaidAmount(WithState(db, p, PaidIn).payments, id) >= b.quote.total && missing > 0;
      PaymentSucceeded(db, p, id, b).Ok? <==> !due || OwnerThere(db, b.resource, missing)
  {
    hide Inv, Conflict, PaidAmount, Touched, Days, Refundable, DebitLate, OwnerThere;
    var b := db.bookings[id];
    RefundableIsRecorded(db, id);
    Stored(db, id);
    var received := LockDays(WithState(db, p, PaidIn), b.quote.room, b.quote.segments);
    RefundableKept(db, received, id, b);
    var conflict := b.status == Cancelled || Conflict(db.bookings, db.now, b.quote.room, b.quote.segments, Some(id));
    OwnerStays(db, received, b.resource, b.quote.writeoff - b.hoursDebited);
    LateIff(received, id, b, conflict, Outstanding(received, id, b));
  }

  /** The owner of the hours exists; hours that can be spent leave a safe balance. */
  predicate OwnerThere(db: Db, resource: Option<nat>, missing: int) {
    && resource.Some? && resource.value in db.profiles
    && (CanSpend(db, resource, missing) ==> StaysSafe(db, resource, missing))
  }

  lemma OwnerStays(db: Db, received: Db, resource: Option<nat>, missing: int)
    requires received.accounts == db.accounts && received.ledger == db.ledger && received.profiles == db.profiles
    requires received.now == db.now
    ensures OwnerThere(received, resource, missing) <==> OwnerThere(db, resource, missing)
  {
    hide EnsureAccount, Today, Spent, Available;
  }

  lemma LateIff(db: Db, id: nat, b: Booking, conflict: bool, remaining: int)
    ensures DebitLate(db, id, b, conflict, remaining).Ok? <==>
              || conflict || remaining > 0 || b.quote.writeoff <= Refundable(db, id, b)
              || OwnerThere(db, b.resource, b.quote.writeoff - Refundable(db, id, b))
  {
    hide ChangeHours, Ensure, UpToDate, Today, Available, Refundable;
    if b.resource.Some? {
      EnsureGives(db, b.resource.value);
      if b.resource.value in db.profiles {
        var ready := Ensure(db, b.resource.value).value;
        var missing := b.quote.writeoff - Refundable(db, id, b);
        if missing > 0 {
          EnsuredOnce(db, b.resource.value);
          DebitIff(ready, b.resource.value, missing, Some(id));
        }
      }
    }
  }

  /** An account just brought up to date is up to date. */
  lemma EnsuredOnce(db: Db, resource: nat)
    requires resource in db.profiles
    ensures var d := Ensure(db, resource).value;
      && Ensure(db, resource).Ok? && resource in d.profiles && d.now == db.now
      && UpToDate(d, resource) == UpToDate(db, resource)
  {
    EnsureGives(db, resource);
    EnsureIdempotent(db, resource);
    EnsureGives(Ensure(db, resource).value, resource);
    hide EnsureAccount, Today, SpentSince;
  }
}
