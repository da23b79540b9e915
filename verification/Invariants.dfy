/** The invariants of the store, and the proof that every command keeps them over every run. */
module Invariants {
  import opened Calendar
  import opened Results
  import opened Segments
  import opened Catalog
  import opened Records
  import opened Hours
  import opened Bookings
  import opened Payments
  import opened Machine

  // ---------------------------------------------------------------- one booking

  /** The price balances, and only a hold has an expiry. */
  predicate Shape(b: Booking) {
    QuoteOk(b.quote) && (b.expiresAt.Some? <==> b.status == Hold)
  }

  /** A paid booking is covered by recorded payments, and a confirmed one is paid or to be paid later. */
  predicate Coverage(b: Booking, received: int) {
    && (b.payment == Paid ==> received >= b.quote.total)
    && (b.status == Confirmed ==> b.payBy == Postpay || b.payment == Paid)
  }

  /** The recorded hours are the ledger's debits less its credits, and never negative. */
  predicate HoursExact(ledger: seq<LedgerRow>, id: nat, b: Booking) {
    if b.resource.None? then b.hoursDebited == 0
    else b.hoursDebited == Net(ledger, id, b.resource.value) >= 0
  }

  predicate Good(db: Db, id: nat, b: Booking) {
    Shape(b) && Coverage(b, PaidAmount(db.payments, id)) && HoursExact(db.ledger, id, b)
  }

  // ---------------------------------------------------------------- the store

  /** Rows made for a booking are on the account of that booking's resource owner. */
  ghost predicate Tagged(ledger: seq<LedgerRow>, bookings: map<nat, Booking>) {
    forall k :: 0 <= k < |ledger| && ledger[k].booking.Some? ==>
      && ledger[k].booking.value in bookings
      && bookings[ledger[k].booking.value].resource == Some(ledger[k].account)
  }

  ghost predicate PaymentsOk(payments: seq<Payment>, known: set<nat>) {
    forall k :: 0 <= k < |payments| ==> payments[k].amount >= 0 && payments[k].booking in known
  }

  ghost predicate Inv(db: Db) {
    && (forall id :: id in db.bookings ==> id < db.nextBooking && Good(db, id, db.bookings[id]))
    && LedgerInv(db)
    && Tagged(db.ledger, db.bookings)
    && PaymentsOk(db.payments, db.bookings.Keys)
    && Disjoint(db.bookings, db.now)
  }

  lemma EmptyInv(now: nat)
    ensures Inv(Empty(now))
  {
  }

  // ---------------------------------------------------------------- the parts of a command

  /** Hours have moved at most for booking `id`, on the account of its resource owner. */
  ghost predicate HoursPart(before: Db, mid: Db, id: nat, resource: Option<nat>) {
    && LedgerInv(mid)
    && |before.ledger| <= |mid.ledger| && mid.ledger[..|before.ledger|] == before.ledger
    && (forall k :: |before.ledger| <= k < |mid.ledger| && mid.ledger[k].booking.Some? ==>
          mid.ledger[k].booking == Some(id) && resource == Some(mid.ledger[k].account))
    && (forall j: nat, r: nat :: j != id ==> Net(mid.ledger, j, r) == Net(before.ledger, j, r))
  }

  /** Payments have changed at most for booking `id`. */
  ghost predicate PaymentsPart(before: Db, mid: Db, id: nat) {
    && PaymentsOk(mid.payments, before.bookings.Keys + {id})
    && (forall j: nat :: j != id ==> PaidAmount(mid.payments, j) == PaidAmount(before.payments, j))
  }

  lemma NoHours(db: Db, mid: Db, id: nat, resource: Option<nat>)
    requires LedgerInv(db) && mid.ledger == db.ledger && mid.accounts == db.accounts && mid.now == db.now
    ensures HoursPart(db, mid, id, resource)
  {
  }

  lemma NoPayments(db: Db, mid: Db, id: nat)
    requires PaymentsOk(db.payments, db.bookings.Keys) && mid.payments == db.payments
    ensures PaymentsPart(db, mid, id)
  {
  }

  lemma MovedHours(db: Db, mid: Db, id: nat, resource: nat, delta: int)
    requires Moves(db, mid, resource, delta, Some(id))
    ensures HoursPart(db, mid, id, Some(resource))
  {
    hide LedgerInv, Net;
  }

  lemma EnsuredHours(db: Db, id: nat, resource: nat, owner: Option<nat>)
    requires LedgerInv(db) && Ensure(db, resource).Ok?
    ensures HoursPart(db, Ensure(db, resource).value, id, owner)
  {
    hide Ensure, LedgerInv, Net;
    EnsureFacts(db, resource);
    var d := Ensure(db, resource).value;
    assert d.ledger == db.ledger ==> d.ledger[..|db.ledger|] == db.ledger;
  }

  /**
   A command that moved hours and payments for one booking only, and then wrote that booking in a good
   state, keeps every invariant.
   */
  lemma Finish(before: Db, mid: Db, after: Db, id: nat, b: Booking)
    requires Inv(before) && HoursPart(before, mid, id, b.resource) && PaymentsPart(before, mid, id)
    requires mid.bookings == before.bookings && mid.now == before.now
    requires after == PutBooking(mid, id, b).(nextBooking := after.nextBooking, fence := after.fence)
    requires before.nextBooking <= after.nextBooking && id < after.nextBooking
    requires id in before.bookings ==> before.bookings[id].resource == b.resource
    requires Good(mid, id, b) && Guarded(before, after, id)
    ensures Inv(after)
  {
    hide Disjoint, Guarded, Shape, Coverage, Chained, AccountOk, Net;
    GuardedKeepsDisjoint(before, after, id);
    forall j | j in after.bookings ensures j < after.nextBooking && Good(after, j, after.bookings[j]) {
      if j != id {
        assert Good(before, j, before.bookings[j]);
        SameHours(before, mid, id, j, before.bookings[j]);
      }
    }
    assert Tagged(after.ledger, after.bookings) by {
      forall k | 0 <= k < |after.ledger| && after.ledger[k].booking.Some?
        ensures after.ledger[k].booking.value in after.bookings
        ensures after.bookings[after.ledger[k].booking.value].resource == Some(after.ledger[k].account)
      {
        if k < |before.ledger| {
          assert after.ledger[k] == before.ledger[k];
        }
      }
    }
    LedgerInvFrame(mid, after);
  }

  lemma LedgerInvFrame(a: Db, b: Db)
    requires LedgerInv(a) && b.ledger == a.ledger && b.accounts == a.accounts && b.now == a.now
    ensures LedgerInv(b)
  {
  }

  lemma SameHours(before: Db, mid: Db, id: nat, j: nat, b: Booking)
    requires (forall k: nat, r: nat :: k != id ==> Net(mid.ledger, k, r) == Net(before.ledger, k, r)) && j != id
    requires HoursExact(before.ledger, j, b)
    ensures HoursExact(mid.ledger, j, b)
  {
    hide Net;
  }

  /** Rows of no known booking add up to nothing. */
  lemma {:induction false} UnknownHasNoHours(ledger: seq<LedgerRow>, bookings: map<nat, Booking>, id: nat, r: nat)
    requires Tagged(ledger, bookings)
    requires id !in bookings || bookings[id].resource != Some(r)
    ensures Net(ledger, id, r) == 0
  {
    if ledger != [] {
      UnknownHasNoHours(ledger[..|ledger| - 1], bookings, id, r);
    }
  }

  lemma {:induction false} UnknownHasNoPayments(payments: seq<Payment>, known: set<nat>, id: nat)
    requires PaymentsOk(payments, known) && id !in known
    ensures PaidAmount(payments, id) == 0
  {
    if payments != [] {
      UnknownHasNoPayments(payments[..|payments| - 1], known, id);
    }
  }

  lemma {:induction false} ReceivedNonNegative(payments: seq<Payment>, known: set<nat>, id: nat)
    requires PaymentsOk(payments, known)
    ensures PaidAmount(payments, id) >= 0
  {
    if payments != [] {
      ReceivedNonNegative(payments[..|payments| - 1], known, id);
    }
  }

  /** In a good store, the `max(0, …)` of the refundable hours never bites. */
  lemma RefundableIsRecorded(db: Db, id: nat)
    requires Inv(db) && id in db.bookings
    ensures Refundable(db, id, db.bookings[id]) == db.bookings[id].hoursDebited
    ensures db.bookings[id].resource.Some? ==>
              Refundable(db, id, db.bookings[id]) == Net(db.ledger, id, db.bookings[id].resource.value)
  {
    assert Good(db, id, db.bookings[id]);
  }

  // ---------------------------------------------------------------- command by command

  /** Cancelling leaves no hours debited for the booking. */
  lemma RefundFacts(db: Db, id: nat, b: Booking)
    requires Inv(db) && id in db.bookings && db.bookings[id] == b && Refund(db, id, b).Ok?
    ensures var d := Refund(db, id, b).value;
      && HoursPart(db, d, id, b.resource)
      && d == db.(accounts := d.accounts, ledger := d.ledger)
      && (b.resource.Some? ==> Net(d.ledger, id, b.resource.value) == 0)
  {
    hide ChangeHours, LedgerInv, Shape, Coverage, Net, Tagged, Disjoint;
    assert Good(db, id, b);
    if b.resource.None? || Refundable(db, id, b) == 0 {
      NoHours(db, db, id, b.resource);
    } else {
      ChangeHoursFacts(db, b.resource.value, Refundable(db, id, b), Some(id));
      MovedHours(db, Refund(db, id, b).value, id, b.resource.value, Refundable(db, id, b));
    }
  }

  lemma LockedInv(db: Db, room: int, segments: seq<Segment>)
    requires Inv(db)
    ensures Inv(LockDays(db, room, segments))
  {
    hide Good, Disjoint, Chained, AccountOk;
    var d := LockDays(db, room, segments);
    forall id | id in d.bookings ensures Good(d, id, d.bookings[id]) {
      GoodFrame(db, d, id, db.bookings[id]);
    }
  }

  lemma GoodFrame(a: Db, b: Db, id: nat, booking: Booking)
    requires Good(a, id, booking) && a.payments == b.payments && a.ledger == b.ledger
    ensures Good(b, id, booking)
  {
  }

  lemma CancelInv(db: Db, id: nat)
    requires Inv(db) && id in db.bookings && CancelInTransaction(db, id, db.bookings[id]).Ok?
    ensures Inv(CancelInTransaction(db, id, db.bookings[id]).value)
  {
    hide Refund, LedgerInv, Net, Disjoint, Tagged, Guarded, PaidAmount, QuoteOk, Touched, Days;
    var b := db.bookings[id];
    if b.status != Cancelled {
      var locked := LockDays(db, b.quote.room, b.quote.segments);
      LockedInv(db, b.quote.room, b.quote.segments);
      RefundFacts(locked, id, b);
      var mid := Refund(locked, id, b).value;
      CancelGuarded(db, id, b);
      CancelFinish(db, mid, CancelInTransaction(db, id, b).value, id, b);
    }
  }

  lemma CancelFinish(db: Db, mid: Db, after: Db, id: nat, b: Booking)
    requires Inv(db) && id in db.bookings && b == db.bookings[id] && HoursPart(db, mid, id, b.resource)
    requires mid == db.(roomDays := mid.roomDays, accounts := mid.accounts, ledger := mid.ledger)
    requires b.resource.Some? ==> Net(mid.ledger, id, b.resource.value) == 0
    requires after == PutBooking(mid, id, CancelledBooking(b, PaidAmount(db.payments, id))) && Guarded(db, after, id)
    ensures Inv(after)
  {
    hide LedgerInv, Net, Disjoint, Tagged, Guarded, PaidAmount, QuoteOk, HoursPart, PaymentsPart;
    NoPayments(db, mid, id);
    assert Good(db, id, b);
    var cancelled := CancelledBooking(b, PaidAmount(db.payments, id));
    assert Good(mid, id, cancelled);
    hide Inv, Good;
    Finish(db, mid, after, id, cancelled);
  }

  /** A command that only rewrites a booking in ways that matter to no invariant but availability. */
  lemma RewriteInv(db: Db, after: Db, id: nat, b: Booking)
    requires Inv(db) && id in db.bookings && Guarded(db, after, id)
    requires after == PutBooking(db, id, b).(roomDays := after.roomDays, prepay := after.prepay)
    requires b.resource == db.bookings[id].resource && b.hoursDebited == db.bookings[id].hoursDebited
    requires Shape(b) && Coverage(b, PaidAmount(db.payments, id))
    ensures Inv(after)
  {
    hide LedgerInv, Net, Disjoint, Tagged, Guarded, PaidAmount, Shape, Coverage;
    var mid := db.(roomDays := after.roomDays, prepay := after.prepay);
    assert Good(db, id, db.bookings[id]);
    NoHours(db, mid, id, b.resource);
    NoPayments(db, mid, id);
    Finish(db, mid, after, id, b);
  }

  lemma ConfirmInv(db: Db, id: nat, revision: int)
    requires Inv(db) && Confirm(db, id, revision).Ok?
    ensures Inv(Confirm(db, id, revision).value)
  {
    hide Conflict, LedgerInv, Disjoint, Tagged, Guarded, PaidAmount, QuoteOk, Refundable, Touched, Days, HoursExact;
    ConfirmGuarded(db, id, revision);
    var b := db.bookings[id];
    var confirmed := b.(status := Confirmed, expiresAt := None, attention := false, revision := b.revision + 1);
    assert b.payBy == Postpay || b.payment == Paid;
    assert Confirm(db, id, revision).value == PutBooking(LockDays(db, b.quote.room, b.quote.segments), id, confirmed);
    hide Confirm;
    assert Good(db, id, b);
    RewriteInv(db, Confirm(db, id, revision).value, id, confirmed);
  }

  lemma PaymentAppended(db: Db, mid: Db, id: nat, p: Payment)
    requires Inv(db) && p.booking == id && p.amount >= 0 && mid.payments == db.payments + [p]
    ensures PaymentsPart(db, mid, id)
    ensures PaidAmount(mid.payments, id) == PaidAmount(db.payments, id) + (if p.state.PaidIn? then p.amount else 0)
  {
    hide LedgerInv, Disjoint, Tagged, Good, PaidAmount;
    forall j: nat ensures PaidAmount(mid.payments, j) == PaidAmount(db.payments, j) + PaidIntoBooking(p, j) {
      PaidAppend(db.payments, p, j);
    }
  }

  lemma MarkPaidInv(db: Db, id: nat, revision: int)
    requires Inv(db) && MarkPaid(db, id, revision).Ok?
    ensures Inv(MarkPaid(db, id, revision).value)
  {
    hide Conflict, Net, LedgerInv, Disjoint, Tagged, Guarded, PaidAmount, QuoteOk, Touched, Days, HoursExact;
    var b := db.bookings[id];
    if b.payment != Paid {
      MarkPaidGuarded(db, id, revision);
      var due := Max(0, b.quote.total - PaidAmount(db.payments, id));
      var p := Payment(id, None, due, PaidIn);
      var mid := LockDays(db.(payments := db.payments + [p]), b.quote.room, b.quote.segments);
      var conflict := Conflict(db.bookings, db.now, b.quote.room, b.quote.segments, Some(id));
      assert MarkPaid(db, id, revision).value == PutBooking(mid, id, Settled(b, conflict));
      hide MarkPaid;
      PaymentAppended(db, mid, id, p);
      NoHours(db, mid, id, b.resource);
      SettledGood(db, mid, id, b, conflict);
      Finish(db, mid, PutBooking(mid, id, Settled(b, conflict)), id, Settled(b, conflict));
    }
  }

  lemma SettledGood(db: Db, mid: Db, id: nat, b: Booking, conflict: bool)
    requires Good(db, id, b) && mid.ledger == db.ledger
    requires PaidAmount(mid.payments, id) >= b.quote.total
    ensures Good(mid, id, Settled(b, conflict))
  {
    hide PaidAmount, Net, QuoteOk;
  }

  /** Bringing the hours to a new quote makes the ledger agree with that quote. */
  lemma AdjustHoursFacts(db: Db, id: nat, b: Booking, writeoff: int)
    requires Inv(db) && id in db.bookings && db.bookings[id] == b && writeoff >= 0
    requires AdjustHours(db, id, b, writeoff).Ok?
    ensures var d := AdjustHours(db, id, b, writeoff).value;
      && HoursPart(db, d, id, b.resource)
      && d == db.(accounts := d.accounts, ledger := d.ledger)
      && HoursExact(d.ledger, id, b.(hoursDebited := writeoff))
  {
    hide ChangeHours, LedgerInv, Shape, Coverage, Net, Tagged, Disjoint;
    assert Good(db, id, b);
    var delta := writeoff - Refundable(db, id, b);
    if delta == 0 {
      NoHours(db, db, id, b.resource);
    } else {
      var moved := if delta > 0 then -delta else Min(-delta, Refundable(db, id, b));
      ChangeHoursFacts(db, b.resource.value, moved, Some(id));
      MovedHours(db, AdjustHours(db, id, b, writeoff).value, id, b.resource.value, moved);
    }
  }

  lemma ApplyChangeInv(db: Db, id: nat, b: Booking, q: Quote, payBy: Method, terms: InvoiceTerms)
    requires Inv(db) && id in db.bookings && db.bookings[id] == b && QuoteOk(q) && Changeable(b.status)
    requires ApplyChange(db, id, b, q, payBy, terms).Ok?
    ensures Inv(ApplyChange(db, id, b, q, payBy, terms).value)
  {
    hide Conflict, Net, LedgerInv, Disjoint, Tagged, Guarded, PaidAmount, AdjustHours, MethodAllowed, PolicyFor;
    ApplyChangeGuarded(db, id, b, q, payBy, terms);
    assert q.writeoff >= 0 && Shape(b) by { assert Good(db, id, b); }
    hide QuoteOk;
    var first := LockDays(db, b.quote.room, b.quote.segments);
    var locked := LockDays(first, q.room, q.segments);
    LockedInv(db, b.quote.room, b.quote.segments);
    LockedInv(first, q.room, q.segments);
    AdjustHoursFacts(locked, id, b, q.writeoff);
    var mid := AdjustHours(locked, id, b, q.writeoff).value;
    NoPayments(db, mid, id);
    var changed := ChangedBooking(b, q, payBy, PaidAmount(db.payments, id), PolicyFor(q, payBy, db.now, terms));
    assert Good(db, id, b);
    Finish(db, mid, ApplyChange(db, id, b, q, payBy, terms).value, id, changed);
  }

  lemma ChangeInv(db: Db, listing: Listing, id: nat, kind: Kind, input: ChangeInput, seen: Option<int>,
                  terms: InvoiceTerms, ahead: Ahead)
    requires Inv(db) && Change(db, listing, id, kind, input, seen, terms, ahead).Ok?
    ensures Inv(Change(db, listing, id, kind, input, seen, terms, ahead).value)
  {
    hide ChangeQuote, ApplyChange, AnyInPast, AllOver, LedgerInv, Disjoint, Tagged, Net, PaidAmount, QuoteOk;
    var b := db.bookings[id];
    assert Good(db, id, b);
    var q := ChangeQuote(listing, b.quote, b.payBy, b.hoursDebited, kind, input).value;
    ChangeSound(listing, b.quote, b.payBy, b.hoursDebited, kind, input);
    ApplyChangeInv(db, id, b, q, Or(input.payBy, b.payBy), terms);
  }

  lemma {:induction false} HoursPartTrans(a: Db, b: Db, c: Db, id: nat, resource: Option<nat>)
    requires HoursPart(a, b, id, resource) && HoursPart(b, c, id, resource)
    ensures HoursPart(a, c, id, resource)
  {
    hide LedgerInv, Net;
    assert c.ledger[..|a.ledger|] == b.ledger[..|a.ledger|];
    forall k | |a.ledger| <= k < |c.ledger| && c.ledger[k].booking.Some?
      ensures c.ledger[k].booking == Some(id) && resource == Some(c.ledger[k].account)
    {
      if k < |b.ledger| {
        assert c.ledger[k] == b.ledger[k];
      }
    }
  }

  /** The hours a new booking records are those its opening debited. */
  lemma OpeningHoursFacts(db: Db, q: Quote, o: Opening, party: Party, id: nat)
    requires LedgerInv(db) && OpeningHours(db, q, o, party, id).Ok? && q.writeoff >= 0
    requires party.resource.Some? ==> Net(db.ledger, id, party.resource.value) == 0
    ensures var d := OpeningHours(db, q, o, party, id).value;
      && HoursPart(db, d, id, party.resource)
      && d == db.(accounts := d.accounts, ledger := d.ledger)
      && (party.resource.None? ==> q.writeoff == 0)
      && (party.resource.Some? ==> Net(d.ledger, id, party.resource.value) == if o.status == Hold then 0 else q.writeoff)
  {
    hide ChangeHours, Ensure, LedgerInv, Net, Available;
    if q.writeoff == 0 {
      NoHours(db, db, id, party.resource);
    } else if o.status != Hold {
      ChangeHoursFacts(db, party.resource.value, -q.writeoff, Some(id));
      MovedHours(db, OpeningHours(db, q, o, party, id).value, id, party.resource.value, -q.writeoff);
    } else {
      EnsuredHours(db, id, party.resource.value, party.resource);
      EnsureFacts(db, party.resource.value);
    }
  }

  lemma NewBookingGood(mid: Db, id: nat, q: Quote, o: Opening, party: Party, hours: int, now: nat, terms: InvoiceTerms)
    requires QuoteOk(q) && (o.expiresAt.Some? <==> o.status == Hold) && o.status != Confirmed
    requires o.payment == Paid ==> q.total == 0
    requires PaidAmount(mid.payments, id) == 0
    requires if party.resource.None? then hours == 0 else hours == Net(mid.ledger, id, party.resource.value) >= 0
    ensures Good(mid, id, NewBooking(q, o, party, hours, now, terms))
  {
    hide QuoteOk, PolicyFor, PaidAmount, Net;
  }

  lemma OpenInv(db: Db, q: Quote, o: Opening, party: Party, terms: InvoiceTerms)
    requires Inv(db) && QuoteOk(q) && Open(db, q, o, party, terms).Ok?
    requires (o.expiresAt.Some? <==> o.status == Hold) && o.status != Confirmed && (o.payment == Paid ==> q.total == 0)
    ensures Inv(Open(db, q, o, party, terms).value)
  {
    hide Inv, HoursPart, PaymentsPart, Good, Guarded, NewBooking, OpeningHours, Open, LedgerInv, Conflict, Touched, Days, Net,
      PaidAmount, PricingOk, PairwiseDisjoint, Duration;
    var id := db.nextBooking;
    FreshId(db);
    OpenGuarded(db, q, o, party, terms);
    OpenUnfolds(db, q, o, party, terms);
    var locked := if o.status == GuestRequest then db else LockDays(db, q.room, q.segments);
    LedgerInvFrame(db, locked);
    OpeningHoursFacts(locked, q, o, party, id);
    var mid := OpeningHours(locked, q, o, party, id).value;
    HoursPartFrame(db, locked, mid, id, party.resource);
    NoPaymentsFresh(db, mid, id);
    var hours := if o.status == Hold then 0 else q.writeoff;
    NewBookingResource(q, o, party, hours, db.now, terms);
    NewBookingGood(mid, id, q, o, party, hours, db.now, terms);
    Finish(db, mid, Open(db, q, o, party, terms).value, id, NewBooking(q, o, party, hours, db.now, terms));
  }

  /** The next booking id is new to the bookings, the ledger and the payments. */
  lemma FreshId(db: Db)
    requires Inv(db)
    ensures db.nextBooking !in db.bookings && LedgerInv(db)
    ensures PaidAmount(db.payments, db.nextBooking) == 0
    ensures forall r: nat :: Net(db.ledger, db.nextBooking, r) == 0
  {
    hide Good, LedgerInv, Disjoint, Net, PaidAmount;
    UnknownHasNoPayments(db.payments, db.bookings.Keys, db.nextBooking);
    forall r: nat ensures Net(db.ledger, db.nextBooking, r) == 0 {
      UnknownHasNoHours(db.ledger, db.bookings, db.nextBooking, r);
    }
  }

  lemma HoursPartFrame(before: Db, locked: Db, mid: Db, id: nat, resource: Option<nat>)
    requires HoursPart(locked, mid, id, resource) && locked.ledger == before.ledger
    ensures HoursPart(before, mid, id, resource)
  {
    hide LedgerInv, Net;
  }

  lemma NoPaymentsFresh(db: Db, mid: Db, id: nat)
    requires Inv(db) && mid.payments == db.payments
    ensures PaymentsPart(db, mid, id)
  {
    NoPayments(db, mid, id);
  }

  lemma OpenUnfolds(db: Db, q: Quote, o: Opening, party: Party, terms: InvoiceTerms)
    requires Open(db, q, o, party, terms).Ok?
    ensures var id := db.nextBooking;
      var locked := if o.status == GuestRequest then db else LockDays(db, q.room, q.segments);
      && OpeningHours(locked, q, o, party, id).Ok?
      && Open(db, q, o, party, terms).value
         == PutBooking(OpeningHours(locked, q, o, party, id).value, id,
                       NewBooking(q, o, party, if o.status == Hold then 0 else q.writeoff, db.now, terms))
            .(nextBooking := id + 1)
  {
    hide OpeningHours, NewBooking, Conflict, Touched, Days;
  }

  lemma NewBookingResource(q: Quote, o: Opening, party: Party, hours: int, now: nat, terms: InvoiceTerms)
    ensures NewBooking(q, o, party, hours, now, terms).resource == party.resource
  {
  }

  lemma CreateInv(db: Db, listing: Listing, input: QuoteInput, party: Party, terms: InvoiceTerms, ahead: Ahead)
    requires Inv(db) && Create(db, listing, input, party, terms, ahead).Ok?
    ensures Inv(Create(db, listing, input, party, terms, ahead).value)
  {
    hide Inv, Open, MakeQuote, QuoteOk, AnyInPast;
    QuoteSound(listing, input, 0);
    var q := MakeQuote(listing, input, 0).value;
    OpenInv(db, q, InitialPayment(input.payBy, q.total, party.guest, db.now), party, terms);
  }

  lemma BlockInv(db: Db, listing: Listing, input: QuoteInput)
    requires Inv(db) && BlockRoom(db, listing, input).Ok?
    ensures Inv(BlockRoom(db, listing, input).value)
  {
    hide Inv, HoursPart, PaymentsPart, Good, Guarded, LedgerInv, Conflict, Touched, Days, Net, PaidAmount, QuoteOk, MakeQuote;
    var id := db.nextBooking;
    FreshId(db);
    BlockGuarded(db, listing, input);
    var asked := input.(payBy := Cash, services := [], writeoff := 0);
    QuoteSound(listing, asked, 0);
    var q := MakeQuote(listing, asked, 0).value;
    var mid := LockDays(db, q.room, q.segments);
    NoHours(db, mid, id, None);
    NoPaymentsFresh(db, mid, id);
    var b := Booking(q, Blocked, Unpaid, NoMethod, None, None, None, 0, false,
                     Policy(NoPolicy, 0, 0, NotTracked), None, 1, None);
    BlockGood(mid, id, b);
    Finish(db, mid, BlockRoom(db, listing, input).value, id, b);
  }

  lemma BlockGood(mid: Db, id: nat, b: Booking)
    requires QuoteOk(b.quote) && b.status == Blocked && b.payment == Unpaid && b.expiresAt == None
    requires b.resource == None && b.hoursDebited == 0
    ensures Good(mid, id, b)
  {
    hide QuoteOk, PaidAmount;
  }

  lemma AttachInv(db: Db, id: nat, pid: nat, amount: int, reported: Option<int>)
    requires Inv(db) && AttachProviderPayment(db, id, pid, amount, reported).Ok?
    ensures Inv(AttachProviderPayment(db, id, pid, amount, reported).value)
  {
    hide LedgerInv, Disjoint, Tagged, Net, Guarded, PaidAmount, QuoteOk, HoursExact, KnownPayment;
    var b := db.bookings[id];
    var after := AttachProviderPayment(db, id, pid, amount, reported).value;
    var mid := db.(payments := after.payments);
    AttachGuarded(db, id, pid, amount, reported);
    if KnownPayment(db.payments, pid) {
      NoPayments(db, mid, id);
    } else {
      PaymentAppended(db, mid, id, Payment(id, Some(pid), amount, Pending));
    }
    NoHours(db, mid, id, b.resource);
    assert Good(db, id, b);
    var attached := b.(providerPayment := Some(pid));
    assert HoursExact(db.ledger, id, attached) by {
      SameRecord(db.ledger, id, b, attached);
    }
    Finish(db, mid, after, id, attached);
  }

  lemma SameRecord(ledger: seq<LedgerRow>, id: nat, b: Booking, c: Booking)
    requires HoursExact(ledger, id, b) && c.resource == b.resource && c.hoursDebited == b.hoursDebited
    ensures HoursExact(ledger, id, c)
  {
    hide Net;
  }

  lemma StateChanged(db: Db, p: nat, state: PaymentState)
    requires Inv(db) && p < |db.payments|
    ensures PaymentsPart(db, WithState(db, p, state), db.payments[p].booking)
    ensures db.payments[p].state != PaidIn || state == PaidIn ==>
              PaidAmount(WithState(db, p, state).payments, db.payments[p].booking)
              >= PaidAmount(db.payments, db.payments[p].booking)
  {
    hide LedgerInv, Disjoint, Tagged, Good, PaidAmount;
    var changed := db.payments[p].(state := state);
    forall j: nat
      ensures PaidAmount(db.payments[p := changed], j)
           == PaidAmount(db.payments, j) - PaidIntoBooking(db.payments[p], j) + PaidIntoBooking(changed, j)
    {
      PaidUpdate(db.payments, p, changed, j);
    }
  }

  /** The late debit makes the recorded hours agree with the ledger, or leaves both alone. */
  lemma DebitLateFacts(db: Db, id: nat, b: Booking, conflict: bool, remaining: int)
    requires LedgerInv(db) && HoursExact(db.ledger, id, b) && b.quote.writeoff >= 0
    requires DebitLate(db, id, b, conflict, remaining).Ok?
    ensures var late := DebitLate(db, id, b, conflict, remaining).value;
      && HoursPart(db, late.db, id, b.resource)
      && late.db == db.(accounts := late.db.accounts, ledger := late.db.ledger)
      && HoursExact(late.db.ledger, id, b.(hoursDebited := late.debited))
  {
    hide ChangeHours, Ensure, LedgerInv, Net, Available;
    var net := Refundable(db, id, b);
    if conflict || remaining > 0 || b.quote.writeoff <= net {
      NoHours(db, db, id, b.resource);
    } else {
      var r := b.resource.value;
      EnsureFacts(db, r);
      EnsuredHours(db, id, r, b.resource);
      var ready := Ensure(db, r).value;
      var missing := b.quote.writeoff - net;
      if !DebitLate(db, id, b, conflict, remaining).value.problem {
        ChangeHoursFacts(ready, r, -missing, Some(id));
        MovedHours(ready, ChangeHours(ready, r, -missing, Some(id)).value, id, r, -missing);
        HoursPartTrans(db, ready, ChangeHours(ready, r, -missing, Some(id)).value, id, b.resource);
      }
    }
  }

  lemma SucceededInv(db: Db, p: nat, id: nat, b: Booking)
    requires Inv(db) && p < |db.payments| && db.payments[p].booking == id && id in db.bookings && db.bookings[id] == b
    requires PaymentSucceeded(db, p, id, b).Ok?
    ensures Inv(PaymentSucceeded(db, p, id, b).value)
  {
    hide Inv, Good, HoursPart, PaymentsPart, Guarded, LedgerInv, Conflict, LockDays, Net, PaidAmount, DebitLate,
      QuoteOk, PaymentSucceeded, HoursExact, WithState;
    Stored(db, id);
    SucceededGuarded(db, p, id, b);
    SucceededUnfolds(db, p, id, b);
    var received := LockDays(WithState(db, p, PaidIn), b.quote.room, b.quote.segments);
    var conflict := b.status == Cancelled || Conflict(db.bookings, db.now, b.quote.room, b.quote.segments, Some(id));
    var remaining := Outstanding(received, id, b);
    SucceededParts(db, p, id, b, conflict, remaining);
    var late := DebitLate(received, id, b, conflict, remaining).value;
    PaidGood(db, late, id, b, conflict, remaining);
    hide Outstanding;
    Finish(db, late.db, PaymentSucceeded(db, p, id, b).value, id, PaidBooking(b, conflict, remaining, late));
  }

  /** The hours and the payments after money has arrived. */
  lemma SucceededParts(db: Db, p: nat, id: nat, b: Booking, conflict: bool, remaining: int)
    requires Inv(db) && p < |db.payments| && db.payments[p].booking == id && id in db.bookings && db.bookings[id] == b
    requires DebitLate(LockDays(WithState(db, p, PaidIn), b.quote.room, b.quote.segments), id, b, conflict, remaining).Ok?
    ensures var received := LockDays(WithState(db, p, PaidIn), b.quote.room, b.quote.segments);
      var late := DebitLate(received, id, b, conflict, remaining).value;
      && HoursPart(db, late.db, id, b.resource) && PaymentsPart(db, late.db, id)
      && late.db == received.(accounts := late.db.accounts, ledger := late.db.ledger)
      && late.db.bookings == db.bookings && late.db.now == db.now && late.db.nextBooking == db.nextBooking
      && late.db.fence == db.fence && late.db.payments == received.payments
      && HoursExact(late.db.ledger, id, b.(hoursDebited := late.debited))
  {
    hide Inv, Good, HoursPart, PaymentsPart, LedgerInv, Touched, Days, Net, PaidAmount, DebitLate, QuoteOk, HoursExact;
    Stored(db, id);
    var paid := WithState(db, p, PaidIn);
    StateChanged(db, p, PaidIn);
    var received := LockDays(paid, b.quote.room, b.quote.segments);
    LedgerInvFrame(db, received);
    DebitLateFacts(received, id, b, conflict, remaining);
    var late := DebitLate(received, id, b, conflict, remaining).value;
    HoursPartFrame(db, received, late.db, id, b.resource);
    PaymentsPartFrame(db, paid, late.db, id);
  }

  /** What the invariant says of one stored booking. */
  lemma Stored(db: Db, id: nat)
    requires Inv(db) && id in db.bookings
    ensures var b := db.bookings[id];
      && Good(db, id, b) && id < db.nextBooking && LedgerInv(db) && HoursExact(db.ledger, id, b)
      && b.quote.writeoff >= 0 && QuoteOk(b.quote)
  {
    hide LedgerInv, Tagged, Disjoint, PaymentsOk, Coverage, HoursExact;
    assert Good(db, id, db.bookings[id]);
  }

  lemma SucceededUnfolds(db: Db, p: nat, id: nat, b: Booking)
    requires p < |db.payments| && PaymentSucceeded(db, p, id, b).Ok?
    ensures var received := LockDays(WithState(db, p, PaidIn), b.quote.room, b.quote.segments);
      var conflict := b.status == Cancelled
                      || Conflict(db.bookings, db.now, b.quote.room, b.quote.segments, Some(id));
      var remaining := Outstanding(received, id, b);
      && DebitLate(received, id, b, conflict, remaining).Ok?
      && var late := DebitLate(received, id, b, conflict, remaining).value;
         PaymentSucceeded(db, p, id, b).value == PutBooking(late.db, id, PaidBooking(b, conflict, remaining, late))
  {
    hide Conflict, Touched, Days, DebitLate, PaidBooking, Outstanding;
  }

  lemma PaymentsPartFrame(before: Db, paid: Db, mid: Db, id: nat)
    requires PaymentsPart(before, paid, id) && mid.payments == paid.payments
    ensures PaymentsPart(before, mid, id)
  {
    hide PaidAmount;
  }

  /** A booking that money has arrived for is good: paid only when covered, confirmed only when it was. */
  lemma PaidGood(db: Db, late: LateHours, id: nat, b: Booking, conflict: bool, remaining: int)
    requires Good(db, id, b) && remaining == Max(0, b.quote.total - PaidAmount(late.db.payments, id))
    requires HoursExact(late.db.ledger, id, b.(hoursDebited := late.debited))
    requires b.status == Cancelled ==> conflict
    ensures Good(late.db, id, PaidBooking(b, conflict, remaining, late))
    ensures PaidBooking(b, conflict, remaining, late).resource == b.resource
  {
    hide QuoteOk, PaidAmount, Net;
  }

  lemma VoidedInv(db: Db, p: nat)
    requires Inv(db) && p < |db.payments| && db.payments[p].state != PaidIn
    ensures Inv(WithState(db, p, Void))
  {
    var id := db.payments[p].booking;
    StateChanged(db, p, Void);
    hide LedgerInv, Disjoint, Tagged, Net, QuoteOk, PaidAmount;
    var after := WithState(db, p, Void);
    forall j | j in after.bookings ensures Good(after, j, after.bookings[j]) {
      assert Good(db, j, db.bookings[j]);
    }
    LedgerInvFrame(db, after);
  }

  lemma PaymentResultInv(db: Db, p: nat, succeeded: bool)
    requires Inv(db) && PaymentResult(db, p, succeeded).Ok?
    ensures Inv(PaymentResult(db, p, succeeded).value)
  {
    hide Inv, PaymentSucceeded, CancelInTransaction;
    var id := db.payments[p].booking;
    if succeeded {
      SucceededInv(db, p, id, db.bookings[id]);
    } else {
      if db.payments[p].state != PaidIn {
        VoidedInv(db, p);
      }
      var voided := if db.payments[p].state == PaidIn then db else WithState(db, p, Void);
      if db.bookings[id].status == Hold {
        CancelInv(voided, id);
      }
    }
  }

  lemma PolicyTickInv(db: Db, id: nat, seen: Policy)
    requires Inv(db) && PolicyTick(db, id, seen).Ok?
    ensures Inv(PolicyTick(db, id, seen).value)
  {
    hide Inv, Good, Guarded, LedgerInv, Net, QuoteOk, PaidAmount, HoursExact;
    var after := PolicyTick(db, id, seen).value;
    if after != db {
      var b := db.bookings[id];
      Stored(db, id);
      PolicyTickGuarded(db, id, seen);
      PolicyTickGood(db, id, seen);
      hide Shape, Coverage;
      RewriteInv(db, after, id, after.bookings[id]);
    }
  }

  lemma PolicyTickGood(db: Db, id: nat, seen: Policy)
    requires id in db.bookings && Good(db, id, db.bookings[id]) && PolicyTick(db, id, seen).value != db
    ensures var after := PolicyTick(db, id, seen).value;
      && id in after.bookings
      && Shape(after.bookings[id]) && Coverage(after.bookings[id], PaidAmount(db.payments, id))
      && after.bookings[id].resource == db.bookings[id].resource
      && after.bookings[id].hoursDebited == db.bookings[id].hoursDebited
      && after == PutBooking(db, id, after.bookings[id]).(prepay := after.prepay)
  {
    hide QuoteOk, PaidAmount, HoursExact;
  }

  lemma EnsureInv(db: Db, resource: nat)
    requires Inv(db) && Ensure(db, resource).Ok?
    ensures Inv(Ensure(db, resource).value)
  {
    EnsureKeeps(db, resource);
    var after := Ensure(db, resource).value;
    hide Ensure, LedgerInv, Disjoint, Good, PaymentsOk, Tagged;
    forall j | j in after.bookings ensures Good(after, j, after.bookings[j]) {
      SameGood(db, after, j, db.bookings[j]);
    }
  }

  lemma SameGood(db: Db, after: Db, j: nat, b: Booking)
    requires Good(db, j, b) && after.payments == db.payments
    requires forall r: nat :: Net(after.ledger, j, r) == Net(db.ledger, j, r)
    ensures Good(after, j, b)
  {
    hide Net, QuoteOk, PaidAmount;
  }

  lemma EnsureKeeps(db: Db, resource: nat)
    requires LedgerInv(db) && Tagged(db.ledger, db.bookings) && Ensure(db, resource).Ok?
    ensures var after := Ensure(db, resource).value;
      && after == db.(accounts := after.accounts, ledger := after.ledger)
      && LedgerInv(after) && Tagged(after.ledger, after.bookings)
      && forall j: nat, r: nat :: Net(after.ledger, j, r) == Net(db.ledger, j, r)
  {
    hide Ensure, LedgerInv, Net;
    EnsureFacts(db, resource);
    var after := Ensure(db, resource).value;
    forall k | 0 <= k < |after.ledger| && after.ledger[k].booking.Some?
      ensures after.ledger[k].booking.value in after.bookings
      ensures after.bookings[after.ledger[k].booking.value].resource == Some(after.ledger[k].account)
    {
      if k < |db.ledger| {
        assert after.ledger[..|db.ledger|][k] == db.ledger[k];
      }
    }
  }

  /** A movement on behalf of nobody changes no booking's hours. */
  lemma MovedForNobodyInv(db: Db, resource: nat, delta: int)
    requires Inv(db) && ChangeHours(db, resource, delta, None).Ok?
    ensures Inv(ChangeHours(db, resource, delta, None).value)
  {
    MovedForNobodyKeeps(db, resource, delta);
    var after := ChangeHours(db, resource, delta, None).value;
    hide ChangeHours, LedgerInv, Disjoint, Good, PaymentsOk, Tagged;
    forall j | j in after.bookings ensures Good(after, j, after.bookings[j]) {
      SameGood(db, after, j, db.bookings[j]);
    }
  }

  lemma MovedForNobodyKeeps(db: Db, resource: nat, delta: int)
    requires LedgerInv(db) && Tagged(db.ledger, db.bookings) && ChangeHours(db, resource, delta, None).Ok?
    ensures var after := ChangeHours(db, resource, delta, None).value;
      && after == db.(accounts := after.accounts, ledger := after.ledger)
      && LedgerInv(after) && Tagged(after.ledger, after.bookings)
      && forall j: nat, r: nat :: Net(after.ledger, j, r) == Net(db.ledger, j, r)
  {
    hide ChangeHours, LedgerInv, Net;
    ChangeHoursFacts(db, resource, delta, None);
    var after := ChangeHours(db, resource, delta, None).value;
    forall k | 0 <= k < |after.ledger| && after.ledger[k].booking.Some?
      ensures after.ledger[k].booking.value in after.bookings
      ensures after.bookings[after.ledger[k].booking.value].resource == Some(after.ledger[k].account)
    {
      if k < |db.ledger| {
        assert after.ledger[..|db.ledger|][k] == db.ledger[k];
      }
    }
  }

  /** A manual movement for a booking records on it what its ledger now says. */
  lemma RecordedInv(db: Db, resource: nat, delta: int, id: nat)
    requires Inv(db) && id in db.bookings && db.bookings[id].resource == Some(resource)
    requires delta <= Refundable(db, id, db.bookings[id])
    requires ChangeHours(db, resource, delta, Some(id)).Ok?
    ensures Inv(Recorded(ChangeHours(db, resource, delta, Some(id)).value, Some(id)))
  {
    hide Inv, Good, HoursPart, PaymentsPart, Guarded, LedgerInv, Net, ChangeHours, QuoteOk;
    var b := db.bookings[id];
    Stored(db, id);
    ChangeHoursFacts(db, resource, delta, Some(id));
    var mid := ChangeHours(db, resource, delta, Some(id)).value;
    MovedHours(db, mid, id, resource, delta);
    NoPaymentsFresh(db, mid, id);
    var recorded := b.(hoursDebited := Refundable(mid, id, b), revision := b.revision + 1);
    PutGuarded(db, mid, id, recorded, db.nextBooking);
    RecordedGood(db, mid, id, b);
    Finish(db, mid, PutBooking(mid, id, recorded), id, recorded);
  }

  lemma RecordedGood(db: Db, mid: Db, id: nat, b: Booking)
    requires Good(db, id, b) && mid.payments == db.payments
    requires b.resource.Some? && Net(mid.ledger, id, b.resource.value) >= 0
    ensures Good(mid, id, b.(hoursDebited := Refundable(mid, id, b), revision := b.revision + 1))
  {
    hide QuoteOk, PaidAmount, Net;
  }

  lemma AdjustInv(db: Db, resource: nat, revision: int, debit: bool, amount: int, booking: Option<nat>)
    requires Inv(db) && AdjustManually(db, resource, revision, debit, amount, booking).Ok?
    ensures Inv(AdjustManually(db, resource, revision, debit, amount, booking).value)
  {
    hide Inv, Ensure, ChangeHours, Recorded, Net;
    var ready := Ensure(db, resource).value;
    EnsureInv(db, resource);
    var delta := if debit then -amount else amount;
    if booking.None? {
      MovedForNobodyInv(ready, resource, delta);
      NothingRecorded(ChangeHours(ready, resource, delta, None).value);
    } else {
      RecordedInv(ready, resource, delta, booking.value);
    }
  }

  lemma NothingRecorded(db: Db)
    ensures Recorded(db, None) == db
  {
  }

  /** A command that rewrites only attention, invoice and revision of a booking. */
  lemma TouchInv(db: Db, id: nat, attention: bool, invoice: Option<nat>)
    requires Inv(db) && id in db.bookings
    ensures var b := db.bookings[id];
      Inv(PutBooking(db, id, b.(attention := attention, invoice := invoice, revision := b.revision + 1)))
  {
    hide Inv, Good, Guarded, LedgerInv, QuoteOk, PaidAmount;
    var b := db.bookings[id];
    Stored(db, id);
    var touched := b.(attention := attention, invoice := invoice, revision := b.revision + 1);
    PutGuarded(db, db, id, touched, db.nextBooking);
    TouchedGood(db, id, b, touched);
    RewriteInv(db, PutBooking(db, id, touched), id, touched);
  }

  lemma TouchedGood(db: Db, id: nat, b: Booking, touched: Booking)
    requires Good(db, id, b)
    requires touched == b.(attention := touched.attention, invoice := touched.invoice, revision := touched.revision)
    ensures Shape(touched) && Coverage(touched, PaidAmount(db.payments, id))
  {
    hide QuoteOk, PaidAmount, Net;
  }

  /** Every command keeps the invariant. */
  lemma BodyInv(db: Db, c: Command)
    requires Inv(db) && Body(db, c).Ok?
    ensures Inv(Body(db, c).value)
  {
    hide Inv;
    match c
    case CreateBooking(listing, input, party, terms, ahead) =>
      hide Create;
      CreateInv(db, listing, input, party, terms, ahead);
    case ConfirmBooking(id, revision) => hide Confirm; ConfirmInv(db, id, revision);
    case MarkBookingPaid(id, revision) => hide MarkPaid; MarkPaidInv(db, id, revision);
    case ResolveBooking(id, revision) => hide Net; TouchInv(db, id, false, db.bookings[id].invoice);
    case CommentBooking(id, revision) => TouchInv(db, id, db.bookings[id].attention, db.bookings[id].invoice);
    case CancelAsAdmin(id, revision) => hide CancelInTransaction; CancelInv(db, id);
    case CancelAsCustomer(id, seen, resident) => hide CancelInTransaction; CancelInv(db, id);
    case ChangeBooking(listing, id, kind, change, seen, terms, ahead) =>
      hide Change;
      ChangeInv(db, listing, id, kind, change, seen, terms, ahead);
    case Block(listing, input) => hide BlockRoom; BlockInv(db, listing, input);
    case AttachPayment(id, pid, amount, reported) =>
      hide AttachProviderPayment;
      AttachInv(db, id, pid, amount, reported);
    case FlagPayment(id) =>
      if id in db.bookings {
        TouchInv(db, id, true, db.bookings[id].invoice);
      }
    case ReceiveResult(payment, succeeded, reported) => hide PaymentResult; PaymentResultInv(db, payment, succeeded);
    case ExpireHold(id) =>
      hide CancelInTransaction;
      if id in db.bookings && Expire(db, id).value != db {
        CancelInv(db, id);
      }
    case TickPolicy(id, policy) => hide PolicyTick; PolicyTickInv(db, id, policy);
    case Invoiced(id, invoice) => TouchInv(db, id, db.bookings[id].attention, Some(invoice));
    case AdjustHoursBy(resource, revision, debit, amount, booking) =>
      hide AdjustManually;
      AdjustInv(db, resource, revision, debit, amount, booking);
    case EnsureHours(resource) => hide Ensure; EnsureInv(db, resource);
  }

  /** Time passing keeps the invariant: accounts stay dated in the past, and occupation only ends. */
  lemma WaitInv(db: Db, ms: nat)
    requires Inv(db)
    ensures Inv(db.(now := db.now + ms))
  {
    TimeKeepsDisjoint(db.bookings, db.now, db.now + ms);
    hide Disjoint, Net, QuoteOk;
    var after := db.(now := db.now + ms);
    forall j | j in after.bookings ensures Good(after, j, after.bookings[j]) {
      assert Good(db, j, db.bookings[j]);
    }
    WaitLedger(db, ms);
  }

  lemma WaitLedger(db: Db, ms: nat)
    requires LedgerInv(db)
    ensures LedgerInv(db.(now := db.now + ms))
  {
    hide Today, LastAfter, Chained, NextDay, IsDate;
    TodayAdvances(db.now, db.now + ms);
    forall r | r in db.accounts ensures AccountOk(db.accounts[r], Today(db.now + ms)) {
      assert AccountOk(db.accounts[r], Today(db.now));
    }
  }

  lemma EnvironmentInv(db: Db, after: Db)
    requires Inv(db)
    requires after == db.(profiles := after.profiles, writable := after.writable, fence := after.fence)
    ensures Inv(after)
  {
    hide Disjoint, Chained, AccountOk, QuoteOk;
    forall j | j in after.bookings ensures Good(after, j, after.bookings[j]) {
      assert Good(db, j, db.bookings[j]);
    }
  }

  /** Every event keeps the invariant. */
  lemma StepInv(db: Db, e: Event)
    requires Inv(db)
    ensures Inv(Step(db, e))
  {
    hide Inv, Body;
    match e
    case Run(c) =>
      EnvironmentInv(db, Fenced(db));
      if db.writable && Body(Fenced(db), c).Ok? {
        BodyInv(Fenced(db), c);
      }
    case Wait(ms) => WaitInv(db, ms);
    case SetProfile(id, profile) => EnvironmentInv(db, Step(db, e));
    case SetWritable(on) => EnvironmentInv(db, Step(db, e));
  }

  /** The invariant holds after every run of commands, clock ticks and profile changes from an empty store. */
  lemma {:induction false} RunInv(now: nat, events: seq<Event>)
    ensures Inv(After(Empty(now), events))
  {
    if events == [] {
      EmptyInv(now);
    } else {
      RunInv(now, events[..|events| - 1]);
      hide Inv, Step;
      StepInv(After(Empty(now), events[..|events| - 1]), events[|events| - 1]);
    }
  }
}
