/** What the invariant means for every run, and how cancellation ends a booking. */
module Theorems {
  import opened Results
  import opened Segments
  import opened Catalog
  import opened Records
  import opened Hours
  import opened Bookings
  import opened Payments
  import opened Machine
  import opened Invariants

  /** The store after a run of events from an empty store. */
  function Reached(now: nat, events: seq<Event>): Db {
    After(Empty(now), events)
  }

  // ---------------------------------------------------------------- every run

  /** No run ever lets two bookings that block one room share a minute. */
  lemma NeverDoubleBooked(now: nat, events: seq<Event>, i: nat, j: nat)
    requires var db := Reached(now, events);
      && i in db.bookings && j in db.bookings && i != j
      && db.bookings[i].quote.room == db.bookings[j].quote.room
      && Blocks(db.bookings[i], db.now) && Blocks(db.bookings[j], db.now)
    ensures var db := Reached(now, events);
      Covered(db.bookings[i].quote.segments) * Covered(db.bookings[j].quote.segments) == {}
  {
    var db := Reached(now, events);
    RunInv(now, events);
    Stored(db, i);
    Stored(db, j);
    hide After;
    assert !Clash(db.bookings[i], db.bookings[j], db.now);
    OverlapSharesMinute(db.bookings[i].quote.segments, db.bookings[j].quote.segments);
  }

  /** The recorded hours of every booking are its debits less its credits, in every run, and never negative. */
  lemma HoursConserved(now: nat, events: seq<Event>, id: nat)
    requires id in Reached(now, events).bookings
    ensures var db := Reached(now, events);
      var b := db.bookings[id];
      && b.hoursDebited >= 0 && Refundable(db, id, b) == b.hoursDebited
      && (b.resource.Some? ==> Net(db.ledger, id, b.resource.value) == b.hoursDebited)
      && (b.resource.None? ==> b.hoursDebited == 0)
  {
    RunInv(now, events);
    hide After, Inv;
    Stored(Reached(now, events), id);
    hide Good;
  }

  /** The ledger explains every balance of every run: a chain from zero that never goes negative. */
  lemma LedgerExplainsBalances(now: nat, events: seq<Event>, r: nat)
    ensures var db := Reached(now, events);
      && Chained(db.ledger)
      && (r in db.accounts ==> db.accounts[r].balance == SinceReset(db.ledger, r) >= 0)
      && (r !in db.accounts ==> SinceReset(db.ledger, r) == 0)
  {
    RunInv(now, events);
    hide After;
    ChainExplainsBalance(Reached(now, events).ledger, r);
  }

  /** In every run a paid booking is covered by recorded money, and a confirmed one is paid or to be paid later. */
  lemma PaidMeansCovered(now: nat, events: seq<Event>, id: nat)
    requires id in Reached(now, events).bookings
    ensures var db := Reached(now, events);
      var b := db.bookings[id];
      && (b.payment == Paid ==> PaidAmount(db.payments, id) >= b.quote.total)
      && (b.status == Confirmed ==> b.payBy == Postpay || b.payment == Paid)
      && PricingOk(b.quote)
  {
    RunInv(now, events);
    hide After, Inv;
    Stored(Reached(now, events), id);
    hide HoursExact;
  }

  // ---------------------------------------------------------------- cancellation

  /** The manual movements of hours made for a booking. */
  predicate AdjustsHoursOf(c: Command, id: nat) {
    c.AdjustHoursBy? && c.booking == Some(id)
  }

  ghost predicate StaysCancelled(db: Db, after: Db, id: nat, manual: bool)
    requires id in db.bookings
  {
    && id in after.bookings && after.bookings[id].status == Cancelled
    && after.bookings[id].resource == db.bookings[id].resource
    && (!manual ==> after.bookings[id].hoursDebited == db.bookings[id].hoursDebited)
  }

  lemma PaymentLeavesCancelled(db: Db, p: nat, succeeded: bool, id: nat)
    requires id in db.bookings && db.bookings[id].status == Cancelled
    requires PaymentResult(db, p, succeeded).Ok? && db.payments[p].booking == id
    ensures var after := PaymentResult(db, p, succeeded).value;
      && StaysCancelled(db, after, id, false)
      && (succeeded ==> after.bookings[id].attention && after.payments[p].state == PaidIn
                        && after.ledger == db.ledger)
  {
    hide Conflict, PaidAmount, Refundable, Touched, Days;
  }

  lemma AdjustLeavesCancelled(db: Db, c: Command, id: nat)
    requires id in db.bookings && db.bookings[id].status == Cancelled && AdjustsHoursOf(c, id) && Body(db, c).Ok?
    ensures StaysCancelled(db, Body(db, c).value, id, true)
  {
    hide Ensure, ChangeHours, Net, AdjustAllowed;
    var delta := if c.debit then -c.amount else c.amount;
    HoursKeepRooms(db, c.resource, 0, None);
    var ready := Ensure(db, c.resource).value;
    HoursKeepRooms(ready, c.resource, delta, Some(id));
    var moved := ChangeHours(ready, c.resource, delta, Some(id)).value;
    assert Body(db, c).value == Recorded(moved, Some(id));
    hide Body;
    assert moved.bookings == db.bookings;
  }

  /** No command revives a cancelled booking, and only a manual movement changes its hours. */
  lemma CommandLeavesCancelled(db: Db, c: Command, id: nat)
    requires Inv(db) && id in db.bookings && db.bookings[id].status == Cancelled && Body(db, c).Ok?
    ensures StaysCancelled(db, Body(db, c).value, id, AdjustsHoursOf(c, id))
  {
    assert db.nextBooking !in db.bookings by { FreshId(db); }
    BodyGuarded(db, c);
    hide Inv, Guarded;
    if id != Target(db, c) {
      hide Body;
      OthersUntouched(db, Body(db, c).value, Target(db, c), id);
    } else {
      OwnCommandLeavesCancelled(db, c, id);
    }
  }

  lemma OwnCommandLeavesCancelled(db: Db, c: Command, id: nat)
    requires db.nextBooking !in db.bookings
    requires id in db.bookings && db.bookings[id].status == Cancelled && Body(db, c).Ok? && id == Target(db, c)
    ensures StaysCancelled(db, Body(db, c).value, id, AdjustsHoursOf(c, id))
  {
    hide Create, Confirm, MarkPaid, ResolveAttention, CancelInTransaction, AllOver, Change, BlockRoom, PaymentResult,
      Expire, PolicyTick, AdjustManually, Ensure;
    match c
    case ConfirmBooking(_, revision) => CancelledRefuses(db, id, revision);
    case MarkBookingPaid(_, revision) => CancelledRefuses(db, id, revision);
    case ResolveBooking(_, revision) => ResolveLeavesCancelled(db, id, revision);
    case CancelAsAdmin(_, _) => CancelledTwice(db, id);
    case CancelAsCustomer(_, _, _) => CancelledTwice(db, id);
    case ExpireHold(_) => ExpireLeavesCancelled(db, id);
    case TickPolicy(_, policy) => PolicyLeavesCancelled(db, id, policy);
    case ReceiveResult(payment, succeeded, reported) => ResultNamesTarget(db, payment, succeeded);
      PaymentLeavesCancelled(db, payment, succeeded, id);
    case ChangeBooking(listing, _, kind, change, seen, terms, ahead) =>
      ChangeRefusesCancelled(db, listing, id, kind, change, seen, terms, ahead);
    case AdjustHoursBy(resource, revision, debit, amount, booking) =>
      if booking == Some(id) {
        hide StaysCancelled;
        AdjustLeavesCancelled(db, c, id);
      } else {
        AdjustElsewhere(db, c, id);
      }
    case EnsureHours(resource) => HoursKeepRooms(db, resource, 0, None);
    case _ =>
  }

  lemma CancelledRefuses(db: Db, id: nat, revision: int)
    requires id in db.bookings && db.bookings[id].status == Cancelled
    ensures Confirm(db, id, revision).Err? && MarkPaid(db, id, revision).Err?
  {
    hide Refundable, Conflict, PaidAmount;
  }

  lemma ResolveLeavesCancelled(db: Db, id: nat, revision: int)
    requires id in db.bookings && db.bookings[id].status == Cancelled && ResolveAttention(db, id, revision).Ok?
    ensures StaysCancelled(db, ResolveAttention(db, id, revision).value, id, false)
  {
    hide Refundable;
  }

  lemma CancelledTwice(db: Db, id: nat)
    requires id in db.bookings && db.bookings[id].status == Cancelled
    ensures CancelInTransaction(db, id, db.bookings[id]) == Ok(db)
  {
    hide Refund, PaidAmount;
  }

  lemma ExpireLeavesCancelled(db: Db, id: nat)
    requires id in db.bookings && db.bookings[id].status == Cancelled
    ensures Expire(db, id) == Ok(db)
  {
    hide CancelInTransaction;
  }

  lemma PolicyLeavesCancelled(db: Db, id: nat, seen: Policy)
    requires id in db.bookings && db.bookings[id].status == Cancelled
    ensures PolicyTick(db, id, seen) == Ok(db)
  {
  }

  lemma ChangeRefusesCancelled(db: Db, listing: Listing, id: nat, kind: Kind, input: ChangeInput,
                               revision: Option<int>, terms: InvoiceTerms, ahead: Ahead)
    requires id in db.bookings && db.bookings[id].status == Cancelled
    ensures Change(db, listing, id, kind, input, revision, terms, ahead).Err?
  {
    hide ChangeQuote, ApplyChange, AnyInPast, AllOver;
  }

  lemma AdjustElsewhere(db: Db, c: Command, id: nat)
    requires c.AdjustHoursBy? && c.booking == None && Body(db, c).Ok? && id in db.bookings
    ensures id in Body(db, c).value.bookings && Body(db, c).value.bookings[id] == db.bookings[id]
  {
    hide Ensure, ChangeHours, Refundable, AdjustAllowed;
    var delta := if c.debit then -c.amount else c.amount;
    HoursKeepRooms(db, c.resource, 0, None);
    HoursKeepRooms(Ensure(db, c.resource).value, c.resource, delta, None);
  }

  lemma EventLeavesCancelled(db: Db, e: Event, id: nat)
    requires Inv(db) && id in db.bookings && db.bookings[id].status == Cancelled
    ensures StaysCancelled(db, Machine.Step(db, e), id, e.Run? && AdjustsHoursOf(e.command, id))
  {
    hide Inv, Body;
    if e.Run? && db.writable && Body(Fenced(db), e.command).Ok? {
      EnvironmentInv(db, Fenced(db));
      CommandLeavesCancelled(Fenced(db), e.command, id);
    }
  }

  ghost predicate NoManualHours(events: seq<Event>, id: nat) {
    forall i :: 0 <= i < |events| && events[i].Run? ==> !AdjustsHoursOf(events[i].command, id)
  }

  /**
   Cancellation is absorbing: after any further run a cancelled booking is still cancelled, and unless
   hours were moved for it by hand, its account has been given or taken nothing more.
   */
  lemma {:induction false} CancelledForever(db: Db, events: seq<Event>, id: nat)
    requires Inv(db) && id in db.bookings && db.bookings[id].status == Cancelled
    ensures Inv(After(db, events)) && StaysCancelled(db, After(db, events), id, !NoManualHours(events, id))
    ensures db.bookings[id].resource.Some? && NoManualHours(events, id) ==>
              Net(After(db, events).ledger, id, db.bookings[id].resource.value)
              == Net(db.ledger, id, db.bookings[id].resource.value)
  {
    if events != [] {
      var last, rest := events[|events| - 1], events[..|events| - 1];
      CancelledForever(db, rest, id);
      hide Inv, Machine.Step, Net, AdjustsHoursOf;
      StepInv(After(db, rest), last);
      EventLeavesCancelled(After(db, rest), last, id);
      assert NoManualHours(events, id) ==> NoManualHours(rest, id);
    }
    hide Inv, Good, Net, Machine.Step, NoManualHours;
    Stored(db, id);
    Stored(After(db, events), id);
  }

  /** Cancelling gives back exactly the outstanding hours, in the one new row of the booking, and no money. */
  lemma CancelReturnsHours(db: Db, id: nat)
    requires Inv(db) && id in db.bookings && db.bookings[id].status != Cancelled
    requires CancelInTransaction(db, id, db.bookings[id]).Ok?
    ensures var after := CancelInTransaction(db, id, db.bookings[id]).value;
      var debited := db.bookings[id].hoursDebited;
      && after.bookings[id].status == Cancelled && after.bookings[id].hoursDebited == 0
      && after.payments == db.payments
      && (debited == 0 ==> after.ledger == db.ledger)
      && (debited > 0 ==> |after.ledger| > |db.ledger|
                          && after.ledger[|after.ledger| - 1].kind == Credit
                          && after.ledger[|after.ledger| - 1].booking == Some(id)
                          && after.ledger[|after.ledger| - 1].amount == debited
                          && (forall k :: |db.ledger| <= k < |after.ledger| - 1 ==> after.ledger[k].booking.None?))
      && (after.bookings[id].attention <==> PaidAmount(db.payments, id) > 0)
  {
    hide Inv, Good, ChangeHours, LedgerInv, Net, PaidAmount, QuoteOk, Touched, Days, HoursExact;
    var b := db.bookings[id];
    Stored(db, id);
    RefundableIsRecorded(db, id);
    var locked := LockDays(db, b.quote.room, b.quote.segments);
    LedgerInvFrame(db, locked);
    if b.hoursDebited > 0 {
      ChangeHoursFacts(locked, b.resource.value, b.hoursDebited, Some(id));
    }
  }

  // ---------------------------------------------------------------- holds and late payments

  /** A late payment of a fully covered booking revives it exactly when its time is still free. */
  lemma LatePaymentRevivesIffFree(db: Db, p: nat, id: nat, after: Db)
    requires Inv(db) && p < |db.payments| && db.payments[p].booking == id && id in db.bookings
    requires db.bookings[id].status == Hold && PaymentSucceeded(db, p, id, db.bookings[id]) == Ok(after)
    ensures id in after.bookings && |after.payments| == |db.payments| && after.payments[p].state == PaidIn
    ensures var b := db.bookings[id];
      var free := !Conflict(db.bookings, db.now, b.quote.room, b.quote.segments, Some(id));
      && (Blocks(after.bookings[id], db.now) <==> free)
      && (after.bookings[id].payment == Paid <==> PaidAmount(after.payments, id) >= b.quote.total)
      && (!free ==> after.bookings[id].status == AwaitingResolution && after.bookings[id].attention
                    && after.ledger == db.ledger)
  {
    var b := db.bookings[id];
    hide Inv, Conflict, PaidAmount, LockDays, DebitLate, PaymentSucceeded, PaidBooking, Refundable;
    SucceededUnfolds(db, p, id, b);
    var received := LockDays(WithState(db, p, PaidIn), b.quote.room, b.quote.segments);
    var conflict := Conflict(db.bookings, db.now, b.quote.room, b.quote.segments, Some(id));
    var remaining := Outstanding(received, id, b);
    SucceededParts(db, p, id, b, conflict, remaining);
    var late := DebitLate(received, id, b, conflict, remaining).value;
    LockingKeeps(WithState(db, p, PaidIn), b.quote.room, b.quote.segments);
    NoDebitOnConflict(received, id, b, remaining);
    RevivedBooking(b, conflict, remaining, late, db.now);
  }

  lemma LockingKeeps(db: Db, room: int, segments: seq<Segment>)
    ensures LockDays(db, room, segments).payments == db.payments && LockDays(db, room, segments).ledger == db.ledger
  {
  }

  lemma NoDebitOnConflict(db: Db, id: nat, b: Booking, remaining: int)
    ensures DebitLate(db, id, b, true, remaining) == Ok(LateHours(db, b.hoursDebited, false))
  {
  }

  lemma RevivedBooking(b: Booking, conflict: bool, remaining: int, late: LateHours, now: int)
    requires b.status == Hold && remaining >= 0
    ensures var paid := PaidBooking(b, conflict, remaining, late);
      && (Blocks(paid, now) <==> !conflict)
      && (paid.payment == Paid <==> remaining == 0)
      && (conflict ==> paid.status == AwaitingResolution && paid.attention)
  {
  }
}
