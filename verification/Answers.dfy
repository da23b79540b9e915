/**
 How every operation of clients and administrators answers: each refusal with its reason, in the order in which
 the reasons count, and what an accepted one writes.
 */
module Answers {
  import opened Calendar
  import opened Results
  import opened Segments
  import opened Catalog
  import opened Records
  import opened Hours
  import opened Bookings
  import opened Machine
  import opened Invariants
  import opened Slots
  import opened Quotas
  import opened Acceptance
  import opened Settlements
  import Balances
  import Effects
  import Revisions
  import Theorems

  /** The moment a minute of a day begins; days begin at midnight in Moscow. */
  function Moment(date: Date, minute: int): int {
    Ordinal(date) * 86400000 - 3 * 3600000 + minute * 60000
  }

  predicate StartsInPast(segments: seq<Segment>, now: int) {
    exists i :: 0 <= i < |segments| && Moment(segments[i].date, segments[i].start) <= now
  }

  predicate IsOver(segments: seq<Segment>, now: int) {
    forall i :: 0 <= i < |segments| ==> Moment(segments[i].date, segments[i].end) <= now
  }

  lemma PastIs(segments: seq<Segment>, now: int)
    ensures AnyInPast(segments, now) <==> StartsInPast(segments, now)
    ensures AllOver(segments, now) <==> IsOver(segments, now)
  {
    hide Ordinal;
  }

  // ---------------------------------------------------------------- a new booking

  /** A new booking is refused before its transaction for a demanded prepayment, its price, its past time or a price that has changed. */
  lemma CreateRefused(db: Db, listing: Listing, input: QuoteInput, party: Party, terms: InvoiceTerms, ahead: Ahead)
    ensures var answer, priced := Create(db, listing, input, party, terms, ahead), MakeQuote(listing, input, 0);
      if input.payBy in {Postpay, Cash, Invoice} && party.profile.Some? && party.profile.value in ahead.prepay
      then answer == Err(PrepayRequired)
      else if input.payBy == NoMethod then answer == Err(ValidationError)
      else if priced.Err? then answer == Err(priced.error)
      else if StartsInPast(priced.value.segments, ahead.now) then answer == Err(SlotInPast)
      else if ahead.shown.Some? && ahead.shown.value != MarkOf(listing, priced.value) then answer == Err(PriceChanged)
      else
        && (answer.Ok? ==> db.nextBooking in answer.value.bookings
                           && answer.value.bookings[db.nextBooking].quote == priced.value)
        && (priced.value.writeoff != 0 && party.resource.None? ==> answer == Err(InsufficientBalance))
        && (answer.Err? ==> answer.error in {SlotConflict, InsufficientBalance, ProfileUnavailable, InvalidBalance})
  {
    hide MakeQuote, AnyInPast, StartsInPast, Open, MarkOf;
    var priced := MakeQuote(listing, input, 0);
    if priced.Ok? {
      PastIs(priced.value.segments, ahead.now);
      OpenRefused(db, priced.value, InitialPayment(input.payBy, priced.value.total, party.guest, db.now), party, terms);
    }
  }

  lemma OpenRefused(db: Db, q: Quote, o: Opening, party: Party, terms: InvoiceTerms)
    ensures var answer := Open(db, q, o, party, terms);
      && (q.writeoff != 0 && party.resource.None? ==> answer == Err(InsufficientBalance))
      && (answer.Err? ==> answer.error in {SlotConflict, InsufficientBalance, ProfileUnavailable, InvalidBalance})
      && (answer.Ok? ==> db.nextBooking in answer.value.bookings && answer.value.bookings[db.nextBooking].quote == q)
  {
    hide ChangeHours, Ensure, Conflict, Touched, Days, PolicyFor, Available;
    if party.resource.Some? {
      HoursErrors(if o.status == GuestRequest then db else LockDays(db, q.room, q.segments), party.resource.value,
                  -q.writeoff, Some(db.nextBooking));
    }
  }

  /**
   The transaction of a new booking: refused without an owner for its hours, when its time is taken, and when its
   hours cannot be spent, in this order; a hold only has them looked at.
   */
  lemma OpenAnswers(db: Db, q: Quote, o: Opening, party: Party, terms: InvoiceTerms)
    requires Inv(db) && Forward(q.segments) && q.writeoff >= 0
    ensures var answer := Open(db, q, o, party, terms);
      if q.writeoff > 0 && party.resource.None? then answer == Err(InsufficientBalance)
      else if o.status != GuestRequest && Taken(db, q.room, q.segments, None) then answer == Err(SlotConflict)
      else if q.writeoff == 0 then answer.Ok?
      else if party.resource.value !in db.profiles then answer == Err(ProfileUnavailable)
      else
        var a := UpToDate(db, party.resource.value);
        if q.writeoff > Spendable(a, Today(db.now)) then answer == Err(InsufficientBalance)
        else if o.status != Hold && a.balance - q.writeoff > 9007199254740991 then answer == Err(InvalidBalance)
        else answer.Ok?
  {
    hide Inv, Conflict, Taken, OpeningHours, Touched, Days, NewBooking, Forward, UpToDate, Spendable, Today;
    ConflictIsTaken(db, q.room, q.segments, None);
    var locked := if o.status == GuestRequest then db else LockDays(db, q.room, q.segments);
    if q.writeoff > 0 && party.resource.Some? {
      OpeningAnswers(db, locked, q, o, party);
    } else {
      NothingToOpen(locked, q, o, party, db.nextBooking);
    }
  }

  lemma NothingToOpen(db: Db, q: Quote, o: Opening, party: Party, id: nat)
    ensures q.writeoff == 0 ==> OpeningHours(db, q, o, party, id) == Ok(db)
  {
    hide ChangeHours, Ensure, Available;
  }

  lemma OpeningAnswers(db: Db, locked: Db, q: Quote, o: Opening, party: Party)
    requires Inv(db) && locked == db.(roomDays := locked.roomDays) && q.writeoff > 0 && party.resource.Some?
    ensures var answer, r := OpeningHours(locked, q, o, party, db.nextBooking), party.resource.value;
      if r !in db.profiles then answer == Err(ProfileUnavailable)
      else
        var a := UpToDate(db, r);
        if q.writeoff > Spendable(a, Today(db.now)) then answer == Err(InsufficientBalance)
        else if o.status != Hold && a.balance - q.writeoff > 9007199254740991 then answer == Err(InvalidBalance)
        else answer.Ok?
  {
    hide Inv, ChangeHours, Ensure, LedgerInv, UpToDate, Spendable, Today, Available;
    var r := party.resource.value;
    LedgerOf(db);
    LedgerInvFrame(db, locked);
    MovementAnswers(locked, r, -q.writeoff, Some(db.nextBooking));
    UpToDateAsBefore(db, locked, r);
    EnsureGives(locked, r);
    OwnerMissing(locked, r);
    if r in db.profiles {
      NotNegative(db, r, q.writeoff);
      EnsureFacts(locked, r);
      var ready := Ensure(locked, r).value;
      AccountDates(ready, r);
      SpendableIs(ready.accounts[r], Today(db.now));
    }
  }

  lemma HoursErrors(db: Db, resource: nat, delta: int, booking: Option<nat>)
    ensures Ensure(db, resource).Err? ==> Ensure(db, resource).error == ProfileUnavailable
    ensures ChangeHours(db, resource, delta, booking).Err? ==>
              ChangeHours(db, resource, delta, booking).error in {ProfileUnavailable, InsufficientBalance, InvalidBalance}
  {
    hide EnsureAccount, Today, SpentSince, Available;
  }

  /**
   How a new booking starts, by the way it is paid: a guest asks, by cash or else by invoice; what costs nothing
   is paid; card and QR code hold the time for a quarter of an hour, cut to the second; the rest waits for payment.
   */
  lemma CreateStarts(db: Db, listing: Listing, input: QuoteInput, party: Party, terms: InvoiceTerms, ahead: Ahead)
    requires Create(db, listing, input, party, terms, ahead).Ok?
    ensures var after := Create(db, listing, input, party, terms, ahead).value;
      && MakeQuote(listing, input, 0).Ok? && db.nextBooking in after.bookings
      && after.nextBooking == db.nextBooking + 1
      && (forall j :: j in db.bookings && j != db.nextBooking ==> j in after.bookings && after.bookings[j] == db.bookings[j])
      && var b, q := after.bookings[db.nextBooking], MakeQuote(listing, input, 0).value;
         && b.quote == q && b.resource == party.resource && b.profile == party.profile && b.revision == 1
         && !b.attention && b.invoice == None && b.providerPayment == None
         && (party.guest ==> b.status == GuestRequest && b.payment == Unpaid
                             && b.payBy == if input.payBy == Cash then Cash else Invoice)
         && (!party.guest ==> b.payBy == input.payBy)
         && (!party.guest && q.total == 0 ==> b.status == AwaitingConfirmation && b.payment == Paid)
         && (!party.guest && q.total != 0 && input.payBy in {CardOnline, QrCode} ==>
               && b.status == Hold && b.payment == Unpaid && b.expiresAt.Some? && b.expiresAt.value % 1000 == 0
               && db.now + 15 * 60000 - 1000 < b.expiresAt.value <= db.now + 15 * 60000)
         && (!party.guest && q.total != 0 && input.payBy !in {CardOnline, QrCode} ==>
               b.status == AwaitingPayment && b.payment == if input.payBy == Postpay then PostpayOpen else Unpaid)
         && (b.status != Hold ==> b.expiresAt == None)
         && b.hoursDebited == (if b.status == Hold then 0 else q.writeoff)
  {
    hide Create, Prepare, MakeQuote, Open, PolicyFor, Conflict;
    Revisions.PreparedQuote(db, listing, input, party, terms, ahead);
    var q := MakeQuote(listing, input, 0).value;
    var o := InitialPayment(input.payBy, q.total, party.guest, db.now);
    Effects.CreateUnfolds(db, listing, input, party, terms, ahead, q, o);
    Effects.OpenEffect(db, q, o, party, terms);
    NextId(db, q, o, party, terms);
  }

  lemma NextId(db: Db, q: Quote, o: Opening, party: Party, terms: InvoiceTerms)
    requires Open(db, q, o, party, terms).Ok?
    ensures Open(db, q, o, party, terms).value.nextBooking == db.nextBooking + 1
  {
    hide OpeningHours, NewBooking, Conflict, Touched, Days;
  }

  /** The terms of a new booking: a week for a postpayment, with a warning on the third day, and the invoice's term. */
  lemma CreateTerms(db: Db, listing: Listing, input: QuoteInput, party: Party, terms: InvoiceTerms, ahead: Ahead)
    requires Create(db, listing, input, party, terms, ahead).Ok?
    ensures var after := Create(db, listing, input, party, terms, ahead).value;
      && db.nextBooking in after.bookings
      && TermsOf(after.bookings[db.nextBooking].policy, after.bookings[db.nextBooking].payBy,
                 after.bookings[db.nextBooking].quote.segments, db.now, terms)
  {
    hide Create, Prepare, MakeQuote, Open, QuoteOk, TermsOf;
    Revisions.PreparedQuote(db, listing, input, party, terms, ahead);
    QuoteSound(listing, input, 0);
    var q := MakeQuote(listing, input, 0).value;
    var o := InitialPayment(input.payBy, q.total, party.guest, db.now);
    Effects.CreateUnfolds(db, listing, input, party, terms, ahead, q, o);
    Effects.OpenEffect(db, q, o, party, terms);
    Revisions.SomeSegments(q);
    PolicyIs(q, o.payBy, db.now, terms);
  }

  /** A policy made at a moment: whole seconds, a whole number of days or hours later, and never after the lead before the start. */
  predicate TermsOf(policy: Policy, payBy: Method, segments: seq<Segment>, made: int, terms: InvoiceTerms) {
    && (payBy == Postpay ==>
          && policy.kind == PostpayPolicy && policy.state == Active && policy.dueAt % 1000 == 0
          && made - 1000 < policy.dueAt - 7 * 86400000 <= made && policy.dueAt - policy.warnAt == 4 * 86400000)
    && (payBy == Invoice ==>
          && policy.kind == InvoicePolicy && policy.state == Active && |segments| > 0
          && var last := Moment(segments[0].date, segments[0].start) - Max(0, terms.leadHours) * 3600000;
             var term := Max(1, terms.ttlHours) * 3600000;
             && policy.dueAt <= last && policy.dueAt - term <= made
             && (policy.dueAt < last ==> policy.dueAt % 1000 == 0 && made - 1000 < policy.dueAt - term))
    && (payBy !in {Postpay, Invoice} ==> policy.kind == NoPolicy && policy.state == NotTracked)
  }

  lemma PolicyIs(q: Quote, payBy: Method, now: nat, terms: InvoiceTerms)
    requires |q.segments| > 0
    ensures TermsOf(PolicyFor(q, payBy, now, terms), payBy, q.segments, now, terms)
  {
    hide Ordinal;
    WholeHours(now, Max(1, terms.ttlHours));
  }

  lemma WholeHours(now: int, hours: int)
    ensures (Second(now) + hours * 3600000) % 1000 == 0 && now - 1000 < Second(now) <= now
  {
    assert hours * 3600000 == (hours * 3600) * 1000;
    assert Second(now) + hours * 3600000 == (now / 1000 + hours * 3600) * 1000;
  }

  // ---------------------------------------------------------------- administrators

  /** Confirming. */
  lemma ConfirmAnswers(db: Db, id: nat, revision: int)
    requires Inv(db)
    ensures var answer := Body(db, ConfirmBooking(id, revision));
      if id !in db.bookings then answer == Err(NotFound)
      else
        var b := db.bookings[id];
        if revision < 1 || revision != b.revision then answer == Err(RevisionConflict)
        else if b.status == Cancelled then answer == Err(InvalidState)
        else if b.payBy != Postpay && b.payment != Paid then answer == Err(PaymentRequired)
        else if b.quote.writeoff > b.hoursDebited then answer == Err(HoursRequired)
        else if b.status == Blocked then answer == Err(InvalidState)
        else if Taken(db, b.quote.room, b.quote.segments, Some(id)) then answer == Err(SlotConflict)
        else
          && answer.Ok? && OnlyBooking(db, answer.value, id) && answer.value.payments == db.payments
          && answer.value.ledger == db.ledger
          && answer.value.bookings[id] == b.(status := Confirmed, expiresAt := None, attention := false,
                                             revision := b.revision + 1)
  {
    hide Inv, Conflict, Taken, Refundable, Touched, Days, Forward;
    if id in db.bookings {
      RefundableIsRecorded(db, id);
      LiveBlocks(db, id);
      ConflictIsTaken(db, db.bookings[id].quote.room, db.bookings[id].quote.segments, Some(id));
    }
  }

  /**
   A payment taken by hand: for cash, invoice and postpayment only. What is short of the total is recorded as one
   payment that has come in; a booking that is paid already is left alone.
   */
  lemma MarkPaidAnswers(db: Db, id: nat, revision: int)
    requires Inv(db)
    ensures var answer := Body(db, MarkBookingPaid(id, revision));
      if id !in db.bookings then answer == Err(NotFound)
      else
        var b := db.bookings[id];
        if revision < 1 || revision != b.revision then answer == Err(RevisionConflict)
        else if b.status == Cancelled || b.payBy !in {Cash, Invoice, Postpay} then answer == Err(InvalidState)
        else if b.payment == Paid then answer == Ok(db)
        else
          var taken, received := Taken(db, b.quote.room, b.quote.segments, Some(id)), PaidAmount(db.payments, id);
          && answer.Ok? && OnlyBooking(db, answer.value, id)
          && answer.value.ledger == db.ledger && answer.value.accounts == db.accounts
          && answer.value.payments
             == db.payments + [Payment(id, None, if received < b.quote.total then b.quote.total - received else 0, PaidIn)]
          && answer.value.bookings[id]
             == b.(payment := Paid, expiresAt := None, attention := taken, revision := b.revision + 1,
                   status := if taken then AwaitingResolution
                             else if b.status == Confirmed then Confirmed else AwaitingConfirmation)
  {
    hide Inv, Conflict, Taken, PaidAmount, Touched, Days, Forward, OnlyBooking;
    if id in db.bookings {
      LiveBlocks(db, id);
      ConflictIsTaken(db, db.bookings[id].quote.room, db.bookings[id].quote.segments, Some(id));
      if MarkPaid(db, id, revision).Ok? && db.bookings[id].payment != Paid {
        SettledByHand(db, id, revision);
      }
    }
  }

  lemma SettledByHand(db: Db, id: nat, revision: int)
    requires id in db.bookings && MarkPaid(db, id, revision).Ok? && db.bookings[id].payment != Paid
    ensures var b, after := db.bookings[id], MarkPaid(db, id, revision).value;
      var taken := Conflict(db.bookings, db.now, b.quote.room, b.quote.segments, Some(id));
      var received := PaidAmount(db.payments, id);
      && OnlyBooking(db, after, id) && after.ledger == db.ledger && after.accounts == db.accounts
      && after.payments
         == db.payments + [Payment(id, None, if received < b.quote.total then b.quote.total - received else 0, PaidIn)]
      && after.bookings[id]
         == b.(payment := Paid, expiresAt := None, attention := taken, revision := b.revision + 1,
               status := if taken then AwaitingResolution
                         else if b.status == Confirmed then Confirmed else AwaitingConfirmation)
  {
    hide Conflict, PaidAmount, Touched, Days;
  }

  /** Attention is taken off by hand, except from an open conflict and from a live booking short of hours. */
  lemma ResolveAnswers(db: Db, id: nat, revision: int)
    requires Inv(db)
    ensures var answer := Body(db, ResolveBooking(id, revision));
      if id !in db.bookings then answer == Err(NotFound)
      else
        var b := db.bookings[id];
        if revision < 1 || revision != b.revision then answer == Err(RevisionConflict)
        else if b.status == AwaitingResolution then answer == Err(ConflictUnresolved)
        else if b.status != Cancelled && b.quote.writeoff > b.hoursDebited then answer == Err(HoursRequired)
        else answer == Ok(db.(bookings := db.bookings[id := b.(attention := false, revision := b.revision + 1)]))
  {
    hide Inv, Refundable;
    if id in db.bookings {
      RefundableIsRecorded(db, id);
    }
  }

  /** A comment counts a revision and asks for nothing but the revision. */
  lemma CommentAnswers(db: Db, id: nat, revision: int)
    ensures var answer := Body(db, CommentBooking(id, revision));
      if id !in db.bookings then answer == Err(NotFound)
      else if revision < 1 || revision != db.bookings[id].revision then answer == Err(RevisionConflict)
      else answer == Ok(db.(bookings := db.bookings[id := db.bookings[id].(revision := db.bookings[id].revision + 1)]))
  {
  }

  // ---------------------------------------------------------------- cancelling

  /** What becomes of a booking that may be cancelled: nothing if it is, and otherwise it is, unless its hours cannot be given back. */
  predicate CancelledOrNot(db: Db, id: nat, answer: Result<Db>)
    requires id in db.bookings
  {
    var b := db.bookings[id];
    if b.status == Cancelled then answer == Ok(db)
    else if HoursRefused(db, b, 0).Some? then answer == Err(HoursRefused(db, b, 0).value)
    else
      && answer.Ok? && OnlyBooking(db, answer.value, id) && answer.value.payments == db.payments
      && answer.value.bookings[id]
         == b.(status := Cancelled, expiresAt := None, hoursDebited := 0,
               attention := PaidAmount(db.payments, id) > 0, revision := b.revision + 1)
  }

  lemma CancelAnswers(db: Db, id: nat)
    requires Inv(db) && id in db.bookings
    ensures CancelledOrNot(db, id, CancelInTransaction(db, id, db.bookings[id]))
  {
    hide Inv, CancelInTransaction, PaidAmount, HoursRefused, OnlyBooking, Touched, Days;
    var b := db.bookings[id];
    if b.status == Cancelled {
      Theorems.CancelledTwice(db, id);
    } else {
      var locked := LockDays(db, b.quote.room, b.quote.segments);
      RefundRefused(db, locked, id);
      RefundDecides(db, id);
      if CancelInTransaction(db, id, b).Ok? {
        CancelEffect(db, id, b);
      }
    }
  }

  lemma RefundDecides(db: Db, id: nat)
    requires id in db.bookings && db.bookings[id].status != Cancelled
    ensures var b := db.bookings[id];
      var refund := Refund(LockDays(db, b.quote.room, b.quote.segments), id, b);
      && (CancelInTransaction(db, id, b).Ok? <==> refund.Ok?)
      && (refund.Err? ==> CancelInTransaction(db, id, b) == Err(refund.error))
  {
    hide Refund, PaidAmount, Touched, Days;
  }

  lemma RefundRefused(db: Db, locked: Db, id: nat)
    requires Inv(db) && id in db.bookings && locked == db.(roomDays := locked.roomDays)
    ensures var b := db.bookings[id];
      var refund := Refund(locked, id, b);
      && (refund.Ok? <==> HoursRefused(db, b, 0).None?)
      && (refund.Err? ==> HoursRefused(db, b, 0) == Some(refund.error))
  {
    hide Inv, ChangeHours, Refundable, LedgerInv, UpToDate, Spendable, Today;
    var b := db.bookings[id];
    RefundableIsRecorded(db, id);
    RefundableKept(db, locked, id, b);
    LedgerOf(db);
    LedgerInvFrame(db, locked);
    DebitedNotNegative(db, id);
    if b.resource.Some? {
      MovementAnswers(locked, b.resource.value, b.hoursDebited, Some(id));
      UpToDateAsBefore(db, locked, b.resource.value);
      if b.resource.value in db.profiles {
        NotNegative(db, b.resource.value, 0);
        SpendableNotNegative(UpToDate(db, b.resource.value), Today(db.now));
      }
    }
  }

  lemma DebitedNotNegative(db: Db, id: nat)
    requires Inv(db) && id in db.bookings
    ensures db.bookings[id].hoursDebited >= 0
    ensures db.bookings[id].resource.None? ==> db.bookings[id].hoursDebited == 0
  {
    hide Inv, QuoteOk, PaidAmount, Net;
    Stored(db, id);
  }

  lemma UpToDateAsBefore(db: Db, locked: Db, r: nat)
    requires locked == db.(roomDays := locked.roomDays)
    ensures r in db.profiles ==> UpToDate(locked, r) == UpToDate(db, r)
  {
    hide EnsureAccount, Today, Spent;
  }

  /** Why the hours of a booking cannot be brought to `hours`, if they cannot: to none when it is cancelled, to those of its new price when it is changed. */
  function HoursRefused(db: Db, b: Booking, hours: int): Option<Error> {
    var more := hours - b.hoursDebited;
    if more == 0 then None
    else if b.resource.None? then Some(InsufficientBalance)
    else if b.resource.value !in db.profiles then Some(ProfileUnavailable)
    else
      var a := UpToDate(db, b.resource.value);
      if more > Spendable(a, Today(db.now)) then Some(InsufficientBalance)
      else if a.balance - more > 9007199254740991 then Some(InvalidBalance)
      else None
  }

  /** An administrator cancels any booking whose revision he has seen. */
  lemma AdminCancelAnswers(db: Db, id: nat, revision: int)
    requires Inv(db)
    ensures var answer := Body(db, CancelAsAdmin(id, revision));
      if id !in db.bookings then answer == Err(NotFound)
      else if revision < 1 || revision != db.bookings[id].revision then answer == Err(RevisionConflict)
      else CancelledOrNot(db, id, answer)
  {
    hide Inv, CancelInTransaction, CancelledOrNot;
    if id in db.bookings {
      CancelAnswers(db, id);
    }
  }

  /**
   A customer cancels what is held, asked for, awaited, confirmed or paid; not a block, a draft or a conflict that
   is to be resolved, and a resident not what is over.
   */
  lemma CustomerCancelAnswers(db: Db, id: nat, seen: Option<int>, resident: bool)
    requires Inv(db)
    ensures var answer := Body(db, CancelAsCustomer(id, seen, resident));
      if id !in db.bookings then answer == Err(NotFound)
      else
        var b := db.bookings[id];
        if seen.Some? && (seen.value < 1 || seen.value != b.revision) then answer == Err(RevisionConflict)
        else if b.status in {Blocked, Draft, AwaitingResolution} then answer == Err(InvalidState)
        else if resident && b.status != Cancelled && IsOver(b.quote.segments, db.now) then answer == Err(InvalidState)
        else CancelledOrNot(db, id, answer)
  {
    hide Inv, CancelInTransaction, CancelledOrNot, AllOver, IsOver, CancelByCustomer;
    if id in db.bookings {
      CancelAnswers(db, id);
      PastIs(db.bookings[id].quote.segments, db.now);
      CustomerUnfolds(db, id, seen, resident);
    } else {
      UnknownRefused(db, id, seen, resident);
    }
  }

  lemma UnknownRefused(db: Db, id: nat, seen: Option<int>, resident: bool)
    requires id !in db.bookings
    ensures CancelByCustomer(db, id, seen, resident) == Err(NotFound)
  {
    hide CancelInTransaction, AllOver;
  }

  lemma CustomerUnfolds(db: Db, id: nat, seen: Option<int>, resident: bool)
    requires id in db.bookings
    ensures var b := db.bookings[id];
      CancelByCustomer(db, id, seen, resident) ==
        if seen.Some? && (seen.value < 1 || seen.value != b.revision) then Err(RevisionConflict)
        else if b.status in {Blocked, Draft, AwaitingResolution} then Err(InvalidState)
        else if resident && b.status != Cancelled && AllOver(b.quote.segments, db.now) then Err(InvalidState)
        else CancelInTransaction(db, id, b)
  {
    hide CancelInTransaction, AllOver;
    var s := db.bookings[id].status;
    assert s.Draft? || s.Hold? || s.GuestRequest? || s.AwaitingPayment? || s.AwaitingConfirmation? || s.Confirmed?
           || s.PaidUp? || s.Cancelled? || s.Blocked? || s.AwaitingResolution?;
  }

  // ---------------------------------------------------------------- hours moved by hand

  /**
   A manual movement is refused, in this order, for an amount below one, an unknown owner, an account that has
   changed, a booking of another account, a credit beyond what the booking was debited, or a balance too small
   or no longer safe.
   */
  lemma AdjustAnswers(db: Db, resource: nat, revision: int, debit: bool, amount: int, booking: Option<nat>)
    requires Inv(db)
    ensures var answer := Body(db, AdjustHoursBy(resource, revision, debit, amount, booking));
      if amount < 1 then answer == Err(ValidationError)
      else if resource !in db.profiles then answer == Err(ProfileUnavailable)
      else
        var a := UpToDate(db, resource);
        if a.revision != revision then answer == Err(RevisionConflict)
        else if booking.Some? && !(booking.value in db.bookings && db.bookings[booking.value].resource == Some(resource))
        then answer == Err(InvalidBooking)
        else if booking.Some? && !debit && amount > db.bookings[booking.value].hoursDebited
        then answer == Err(RefundExceedsDebit)
        else if debit && amount > Spendable(a, Today(db.now)) then answer == Err(InsufficientBalance)
        else if (if debit then a.balance - amount else a.balance + amount) > 9007199254740991
        then answer == Err(InvalidBalance)
        else answer.Ok?
  {
    hide Inv, Ensure, ChangeHours, UpToDate, Today, Spendable, LedgerInv, Refundable;
    EnsureGives(db, resource);
    OwnerMissing(db, resource);
    if amount >= 1 && resource in db.profiles {
      var ready := Ensure(db, resource).value;
      HoursKeepRooms(db, resource, 0, None);
      EnsuredOnce(db, resource);
      EnsureInv(db, resource);
      LedgerOf(ready);
      if booking.Some? && booking.value in ready.bookings {
        RefundableIsRecorded(ready, booking.value);
        SameBookings(db, ready);
      }
      MovementAnswers(ready, resource, if debit then -amount else amount, booking);
      NotNegative(db, resource, amount);
    }
  }

  lemma SameBookings(db: Db, ready: Db)
    requires KeepsRooms(db, ready)
    ensures ready.bookings == db.bookings
  {
  }

  lemma SpendableNotNegative(a: Account, today: Date)
    ensures Spendable(a, today) >= 0
  {
  }

  /** What can be spent leaves the balance at zero at the least. */
  lemma NotNegative(db: Db, resource: nat, amount: int)
    requires Inv(db) && resource in db.profiles
    ensures UpToDate(db, resource).balance >= 0
    ensures amount <= Spendable(UpToDate(db, resource), Today(db.now)) ==>
              amount <= 0 || UpToDate(db, resource).balance - amount >= 0
  {
    hide Inv, Ensure, UpToDate, Today, LedgerInv;
    LedgerOf(db);
    EnsureGives(db, resource);
    EnsureFacts(db, resource);
    AccountNonNegative(Ensure(db, resource).value, resource);
  }

  /**
   An accepted movement by hand takes or gives exactly its amount; for nobody it touches no booking, for a
   booking it changes the recorded hours of that booking and no other.
   */
  lemma AdjustMovesBalance(db: Db, resource: nat, revision: int, debit: bool, amount: int, booking: Option<nat>)
    requires Inv(db) && Body(db, AdjustHoursBy(resource, revision, debit, amount, booking)).Ok?
    ensures resource in db.profiles
    ensures var after := Body(db, AdjustHoursBy(resource, revision, debit, amount, booking)).value;
      && resource in after.accounts
      && after.accounts[resource].balance == UpToDate(db, resource).balance + (if debit then -amount else amount)
      && after.accounts == db.accounts[resource := after.accounts[resource]] && after.payments == db.payments
      && (booking.None? ==> after.bookings == db.bookings)
      && (booking.Some? ==>
            && booking.value in db.bookings && OnlyBooking(db, after, booking.value)
            && after.bookings[booking.value]
               == db.bookings[booking.value].(
                    hoursDebited := db.bookings[booking.value].hoursDebited + (if debit then amount else -amount),
                    revision := db.bookings[booking.value].revision + 1))
  {
    hide Inv, Ensure, ChangeHours, UpToDate, Refundable, AdjustAllowed, Bookings.Recorded;
    var ready := Ensure(db, resource).value;
    var delta := if debit then -amount else amount;
    EnsureGives(db, resource);
    EnsuredOnce(db, resource);
    Effects.HoursKeepOthers(db, resource, 0, None);
    MovementMoves(ready, resource, delta, booking);
    EnsureAccounts(db, resource);
    EnsureInv(db, resource);
    if booking.Some? {
      Balances.AdjustNames(ready, resource, debit, amount, booking.value);
      Balances.MovedRefundable(ready, resource, delta, booking.value);
    }
    RecordedFor(ready, resource, delta, booking);
    hide Body;
  }

  /** Recording a movement writes its booking and no other collection. */
  lemma RecordedFor(ready: Db, resource: nat, delta: int, booking: Option<nat>)
    requires ChangeHours(ready, resource, delta, booking).Ok?
    requires booking.Some? ==> booking.value in ready.bookings
    ensures var moved := ChangeHours(ready, resource, delta, booking).value;
      var after := Bookings.Recorded(moved, booking);
      && after.accounts == moved.accounts && after.payments == ready.payments
      && (booking.None? ==> after.bookings == ready.bookings)
      && (booking.Some? ==>
            && OnlyBooking(ready, after, booking.value)
            && after.bookings[booking.value]
               == ready.bookings[booking.value].(
                    hoursDebited := Refundable(moved, booking.value, ready.bookings[booking.value]),
                    revision := ready.bookings[booking.value].revision + 1))
  {
    hide ChangeHours, Refundable;
    Effects.HoursKeepOthers(ready, resource, delta, booking);
  }

  lemma EnsureAccounts(db: Db, resource: nat)
    requires Ensure(db, resource).Ok?
    ensures var d := Ensure(db, resource).value;
      resource in d.accounts && d.accounts == db.accounts[resource := d.accounts[resource]]
  {
    hide Today, SpentSince, MonthlyPeriod;
  }

  // ---------------------------------------------------------------- an edit, a transfer, an extension

  /**
   A change is refused before its transaction for its price, for new time that has begun, as an extension of what
   is over, or for a price that has changed; then for an old revision, or a state in which nothing is changed.
   */
  lemma ChangeRefused(db: Db, listing: Listing, id: nat, kind: Kind, input: ChangeInput, seen: Option<int>,
                      terms: InvoiceTerms, ahead: Ahead)
    requires Inv(db)
    ensures var answer := Change(db, listing, id, kind, input, seen, terms, ahead);
      if id !in db.bookings then answer == Err(NotFound)
      else
        var b := db.bookings[id];
        && |b.quote.segments| > 0
        && var quoted := ChangeQuote(listing, b.quote, b.payBy, b.hoursDebited, kind, input);
           if quoted.Err? then answer == Err(quoted.error)
           else if kind != Extend && StartsInPast(quoted.value.segments, ahead.now) then answer == Err(SlotInPast)
           else if kind == Extend && IsOver(b.quote.segments, ahead.now) then answer == Err(InvalidState)
           else if ahead.shown.Some? && ahead.shown.value != ShownMark(listing, kind, quoted.value)
           then answer == Err(PriceChanged)
           else if Or(seen, b.revision) < 1 || Or(seen, b.revision) != b.revision then answer == Err(RevisionConflict)
           else if b.status in {Draft, Hold, GuestRequest, Cancelled, Blocked} then answer == Err(InvalidState)
           else answer == ApplyChange(db, id, b, quoted.value, Or(input.payBy, b.payBy), terms)
  {
    hide Inv, ChangeQuote, ApplyChange, AnyInPast, AllOver, StartsInPast, IsOver, MarkOf, QuoteOk, PaidAmount, HoursExact;
    if id in db.bookings {
      Stored(db, id);
      var b := db.bookings[id];
      Revisions.SomeSegments(b.quote);
      var quoted := ChangeQuote(listing, b.quote, b.payBy, b.hoursDebited, kind, input);
      PastIs(b.quote.segments, ahead.now);
      if quoted.Ok? {
        PastIs(quoted.value.segments, ahead.now);
      }
      var s := b.status;
      assert s.Draft? || s.Hold? || s.GuestRequest? || s.AwaitingPayment? || s.AwaitingConfirmation? || s.Confirmed?
             || s.PaidUp? || s.Cancelled? || s.Blocked? || s.AwaitingResolution?;
    }
  }

  /** An extension is shown with a mark of its time alone. */
  function ShownMark(listing: Listing, kind: Kind, q: Quote): PriceMark {
    MarkOf(listing, if kind == Extend then q.(services := []) else q)
  }

  /** Why the way of payment is refused for a change, if it is; `due` says that money is still to be paid. */
  function WayRefused(db: Db, b: Booking, payBy: Method, due: bool): Option<Error> {
    match payBy
    case Cash => if DemandedOf(db, b.profile) then Some(PrepayRequired) else None
    case Postpay => if DemandedOf(db, b.profile) then Some(PrepayRequired) else None
    case Invoice =>
      if DemandedOf(db, b.profile) then Some(PrepayRequired)
      else if due && !(b.profile.Some? && b.profile.value in db.profiles && db.profiles[b.profile.value].complete)
      then Some(ProfileDataRequired)
      else None
    case Balance => if due then Some(InsufficientBalance) else None
    case CardOnline => if due then Some(PaymentMethodRequired) else None
    case QrCode => if due then Some(PaymentMethodRequired) else None
    case NoMethod => Some(ValidationError)
  }

  predicate DemandedOf(db: Db, profile: Option<nat>) {
    profile.Some? && profile.value in db.prepay
  }

  lemma WayAllowedIff(db: Db, b: Booking, payBy: Method, due: bool)
    ensures MethodAllowed(db, b, payBy, due)
         == (match WayRefused(db, b, payBy, due) case None => Ok(()) case Some(e) => Err(e))
  {
  }

  /**
   The transaction of a change is refused when the new time is taken, when the hours cannot follow, or when the
   way of payment is not allowed for what is still due, in this order, and else succeeds.
   */
  lemma ChangeAnswers(db: Db, id: nat, q: Quote, payBy: Method, terms: InvoiceTerms)
    requires Inv(db) && id in db.bookings && Forward(q.segments) && q.writeoff >= 0
    ensures var b := db.bookings[id];
      var due := q.total > PaidAmount(db.payments, id);
      var answer := ApplyChange(db, id, b, q, payBy, terms);
      if Taken(db, q.room, q.segments, Some(id)) then answer == Err(SlotConflict)
      else if HoursRefused(db, b, q.writeoff).Some? then answer == Err(HoursRefused(db, b, q.writeoff).value)
      else if WayRefused(db, b, payBy, due).Some? then answer == Err(WayRefused(db, b, payBy, due).value)
      else answer.Ok?
  {
    hide Inv, Conflict, Taken, PaidAmount, AdjustHours, Touched, Days, MethodAllowed, WayRefused, HoursRefused, Forward,
      ChangedBooking, PolicyFor;
    var b := db.bookings[id];
    ConflictIsTaken(db, q.room, q.segments, Some(id));
    var locked := LockDays(LockDays(db, b.quote.room, b.quote.segments), q.room, q.segments);
    WayAllowedIff(db, b, payBy, q.total > PaidAmount(db.payments, id));
    HoursFollow(db, locked, id, q.writeoff);
  }

  lemma HoursFollow(db: Db, locked: Db, id: nat, writeoff: int)
    requires Inv(db) && id in db.bookings && locked == db.(roomDays := locked.roomDays) && writeoff >= 0
    ensures var b := db.bookings[id];
      var followed := AdjustHours(locked, id, b, writeoff);
      && (followed.Ok? <==> HoursRefused(db, b, writeoff).None?)
      && (followed.Err? ==> HoursRefused(db, b, writeoff) == Some(followed.error))
  {
    hide Inv, ChangeHours, Refundable, LedgerInv, UpToDate, Spendable, Today;
    var b := db.bookings[id];
    RefundableIsRecorded(db, id);
    RefundableKept(db, locked, id, b);
    LedgerOf(db);
    LedgerInvFrame(db, locked);
    DebitedNotNegative(db, id);
    var more := writeoff - b.hoursDebited;
    if b.resource.Some? && more != 0 {
      MovementAnswers(locked, b.resource.value, -more, Some(id));
      UpToDateAsBefore(db, locked, b.resource.value);
      if b.resource.value in db.profiles {
        NotNegative(db, b.resource.value, more);
        SpendableNotNegative(UpToDate(db, b.resource.value), Today(db.now));
      }
    }
  }

  /**
   What an accepted change writes: the new price with its hours and terms, a wait for payment when the payments
   fall short of it, and attention when they exceed it.
   */
  lemma ChangeWrites(db: Db, id: nat, q: Quote, payBy: Method, terms: InvoiceTerms)
    requires Inv(db) && id in db.bookings && |q.segments| > 0 && ApplyChange(db, id, db.bookings[id], q, payBy, terms).Ok?
    ensures var before, after := db.bookings[id], ApplyChange(db, id, db.bookings[id], q, payBy, terms).value;
      var received := PaidAmount(db.payments, id);
      && OnlyBooking(db, after, id) && after.payments == db.payments
      && var b := after.bookings[id];
         && b.quote == q && b.payBy == payBy && b.hoursDebited == q.writeoff && b.revision == before.revision + 1
         && b.expiresAt == before.expiresAt && b.resource == before.resource && b.profile == before.profile
         && b.invoice == before.invoice && b.providerPayment == before.providerPayment
         && (received < q.total ==> b.status == AwaitingPayment
                                    && b.payment == if payBy == Postpay then PostpayOpen else Unpaid)
         && (received >= q.total ==>
               b.payment == Paid
               && b.status == if before.status == AwaitingResolution then AwaitingConfirmation else before.status)
         && (b.attention <==> received > q.total)
         && TermsOf(b.policy, payBy, q.segments, db.now, terms)
  {
    hide Inv, Conflict, PaidAmount, Touched, Days, AdjustHours, MethodAllowed, PolicyFor, TermsOf;
    var b := db.bookings[id];
    Effects.AdjustKeepsOthers(LockDays(LockDays(db, b.quote.room, b.quote.segments), q.room, q.segments), id, b, q.writeoff);
    PolicyIs(q, payBy, db.now, terms);
  }
}
