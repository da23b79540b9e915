/**
 How hours can come apart: what a confirmed booking is covered by, and what a balance can exceed. Both hold
 in every run but for credits, and both fail with them.
 */
module Balances {
  import opened Calendar
  import opened Results
  import opened Segments
  import opened Catalog
  import opened Records
  import opened Hours
  import opened Bookings
  import opened Payments
  import opened Machine
  import opened Invariants
  import opened Effects
  import opened Theorems
  import opened Revisions
  import opened Acceptance
  import opened Examples

  // ---------------------------------------------------------------- the hours of a confirmed booking

  /** The hours a confirmed booking was priced with are still debited for it. */
  predicate HoursCovered(b: Booking) {
    b.status == Confirmed ==> b.quote.writeoff <= b.hoursDebited
  }

  /** The manual credits made for a booking. */
  predicate CreditsHoursOf(c: Command, id: nat) {
    AdjustsHoursOf(c, id) && !c.debit
  }

  lemma CreateCovers(db: Db, listing: Listing, input: QuoteInput, party: Party, terms: InvoiceTerms, ahead: Ahead)
    requires Create(db, listing, input, party, terms, ahead).Ok?
    ensures var after := Create(db, listing, input, party, terms, ahead).value;
      db.nextBooking in after.bookings && HoursCovered(after.bookings[db.nextBooking])
  {
    hide Create, Prepare, Open, MakeQuote, PolicyFor;
    PreparedQuote(db, listing, input, party, terms, ahead);
    var q := MakeQuote(listing, input, 0).value;
    var o := InitialPayment(input.payBy, q.total, party.guest, db.now);
    CreateUnfolds(db, listing, input, party, terms, ahead, q, o);
    OpenEffect(db, q, o, party, terms);
  }

  lemma BlockCovers(db: Db, listing: Listing, input: QuoteInput)
    requires BlockRoom(db, listing, input).Ok?
    ensures var after := BlockRoom(db, listing, input).value;
      db.nextBooking in after.bookings && HoursCovered(after.bookings[db.nextBooking])
  {
    hide MakeQuote, Conflict, Touched, Days;
  }

  lemma ConfirmCovers(db: Db, id: nat, revision: int)
    requires Inv(db) && Confirm(db, id, revision).Ok?
    ensures var after := Confirm(db, id, revision).value; id in after.bookings && HoursCovered(after.bookings[id])
  {
    hide Inv, Conflict, Refundable, Touched, Days;
    RefundableIsRecorded(db, id);
  }

  lemma MarkPaidCovers(db: Db, id: nat, revision: int)
    requires MarkPaid(db, id, revision).Ok? && HoursCovered(db.bookings[id])
    ensures var after := MarkPaid(db, id, revision).value; id in after.bookings && HoursCovered(after.bookings[id])
  {
    hide Conflict, PaidAmount, Touched, Days;
  }

  lemma CancelCovers(db: Db, id: nat, b: Booking)
    requires id in db.bookings && db.bookings[id] == b && CancelInTransaction(db, id, b).Ok?
    ensures var after := CancelInTransaction(db, id, b).value; id in after.bookings && HoursCovered(after.bookings[id])
  {
    hide Refund, PaidAmount, Touched, Days;
  }

  lemma ChangeCovers(db: Db, listing: Listing, id: nat, kind: Kind, input: ChangeInput, seen: Option<int>,
                     terms: InvoiceTerms, ahead: Ahead)
    requires Change(db, listing, id, kind, input, seen, terms, ahead).Ok?
    ensures var after := Change(db, listing, id, kind, input, seen, terms, ahead).value;
      id in after.bookings && HoursCovered(after.bookings[id])
  {
    hide ChangeQuote, ApplyChange, AnyInPast, AllOver, PolicyFor, PaidAmount;
    var b := db.bookings[id];
    var q := ChangeQuote(listing, b.quote, b.payBy, b.hoursDebited, kind, input).value;
    ChangeParts(db, id, b, q, Or(input.payBy, b.payBy), terms);
  }

  lemma SucceededCovers(db: Db, p: nat, id: nat, b: Booking)
    requires p < |db.payments| && PaymentSucceeded(db, p, id, b).Ok? && HoursCovered(b)
    ensures var after := PaymentSucceeded(db, p, id, b).value; id in after.bookings && HoursCovered(after.bookings[id])
  {
    hide PaymentSucceeded, Conflict, LockDays, WithState, Outstanding, DebitLate;
    SucceededUnfolds(db, p, id, b);
    var received := LockDays(WithState(db, p, PaidIn), b.quote.room, b.quote.segments);
    var conflict := b.status == Cancelled || Conflict(db.bookings, db.now, b.quote.room, b.quote.segments, Some(id));
    LateCovers(received, id, b, conflict, Outstanding(received, id, b));
  }

  lemma LateCovers(db: Db, id: nat, b: Booking, conflict: bool, remaining: int)
    requires DebitLate(db, id, b, conflict, remaining).Ok?
    ensures DebitLate(db, id, b, conflict, remaining).value.debited in {b.hoursDebited, b.quote.writeoff}
  {
    hide Refundable, Ensure, ChangeHours, Available;
  }

  lemma ResultCovers(db: Db, p: nat, succeeded: bool, id: nat)
    requires PaymentResult(db, p, succeeded).Ok? && db.payments[p].booking == id
    requires id in db.bookings && HoursCovered(db.bookings[id])
    ensures var after := PaymentResult(db, p, succeeded).value; id in after.bookings && HoursCovered(after.bookings[id])
  {
    hide CancelInTransaction, PaymentSucceeded;
    var b := db.bookings[id];
    if succeeded {
      SucceededCovers(db, p, id, b);
    } else if b.status == Hold {
      CancelCovers(if db.payments[p].state == PaidIn then db else WithState(db, p, Void), id, b);
    }
  }

  /** A manual movement changes the recorded hours by its amount, and nothing else that matters here. */
  lemma AdjustMoves(db: Db, c: Command, id: nat)
    requires Inv(db) && AdjustsHoursOf(c, id) && Body(db, c).Ok?
    ensures var after := Body(db, c).value;
      && id in db.bookings && id in after.bookings && c.amount >= 1
      && var b, d := db.bookings[id], after.bookings[id];
         && d.status == b.status && d.quote == b.quote
         && d.hoursDebited == b.hoursDebited + (if c.debit then c.amount else -c.amount)
  {
    hide Inv, Ensure, ChangeHours, AdjustAllowed, Refundable, LedgerInv, Net, Good;
    var delta := if c.debit then -c.amount else c.amount;
    var ready := Ensure(db, c.resource).value;
    HoursKeepRooms(db, c.resource, 0, None);
    EnsureInv(db, c.resource);
    AdjustNames(ready, c.resource, c.debit, c.amount, id);
    HoursKeepRooms(ready, c.resource, delta, Some(id));
    MovedRefundable(ready, c.resource, delta, id);
    var moved := ChangeHours(ready, c.resource, delta, Some(id)).value;
    assert Body(db, c).value == Recorded(moved, Some(id));
    hide Body;
    assert moved.bookings == db.bookings;
  }

  lemma AdjustNames(db: Db, resource: nat, debit: bool, amount: int, id: nat)
    requires AdjustAllowed(db, resource, debit, amount, id).Ok?
    ensures id in db.bookings && db.bookings[id].resource == Some(resource)
    ensures !debit ==> amount <= Refundable(db, id, db.bookings[id])
  {
    hide Refundable;
  }

  lemma MovedRefundable(db: Db, resource: nat, delta: int, id: nat)
    requires Inv(db) && id in db.bookings && db.bookings[id].resource == Some(resource)
    requires delta <= Refundable(db, id, db.bookings[id])
    requires ChangeHours(db, resource, delta, Some(id)).Ok?
    ensures Refundable(ChangeHours(db, resource, delta, Some(id)).value, id, db.bookings[id])
         == db.bookings[id].hoursDebited - delta
  {
    hide Inv, ChangeHours, LedgerInv, Net, Good, Tagged;
    Stored(db, id);
    RefundableIsRecorded(db, id);
    ChangeHoursFacts(db, resource, delta, Some(id));
  }

  /** No command but a manual credit takes a confirmed booking's hours from under it. */
  lemma TargetCovered(db: Db, c: Command, id: nat)
    requires Inv(db) && Body(db, c).Ok? && id == Target(db, c) && !CreditsHoursOf(c, id)
    requires id in db.bookings ==> HoursCovered(db.bookings[id])
    requires id in Body(db, c).value.bookings
    ensures HoursCovered(Body(db, c).value.bookings[id])
  {
    hide Inv, Create, Confirm, MarkPaid, Refundable, CancelInTransaction, AllOver, Change, BlockRoom, PaymentResult,
      Lateness, AdjustManually, Ensure, KnownPayment;
    match c
    case CreateBooking(listing, input, party, terms, ahead) => CreateCovers(db, listing, input, party, terms, ahead);
    case Block(listing, input) => BlockCovers(db, listing, input);
    case ConfirmBooking(_, revision) => ConfirmCovers(db, id, revision);
    case MarkBookingPaid(_, revision) => MarkPaidKnows(db, id, revision); MarkPaidCovers(db, id, revision);
    case CancelAsAdmin(_, _) => CancelCovers(db, id, db.bookings[id]);
    case CancelAsCustomer(_, _, _) => CancelCovers(db, id, db.bookings[id]);
    case ChangeBooking(listing, _, kind, change, seen, terms, ahead) =>
      ChangeCovers(db, listing, id, kind, change, seen, terms, ahead);
    case ReceiveResult(p, succeeded, _) =>
      ResultNames(db, p, succeeded);
      ResultCovers(db, p, succeeded, id);
    case ExpireHold(_) =>
      if id in db.bookings && Expire(db, id) != Ok(db) {
        CancelCovers(db, id, db.bookings[id]);
      }
    case AdjustHoursBy(_, _, _, _, booking) =>
      if booking == Some(id) {
        AdjustMoves(db, c, id);
      } else {
        AdjustForNobody(db, c);
      }
    case EnsureHours(resource) => HoursKeepRooms(db, resource, 0, None);
    case _ =>
  }

  lemma MarkPaidKnows(db: Db, id: nat, revision: int)
    requires MarkPaid(db, id, revision).Ok?
    ensures id in db.bookings
  {
    hide Conflict, PaidAmount, Touched, Days;
  }

  lemma ResultNames(db: Db, p: nat, succeeded: bool)
    requires PaymentResult(db, p, succeeded).Ok?
    ensures p < |db.payments| && db.payments[p].booking in db.bookings
  {
    hide PaymentSucceeded, PaymentCancelled;
  }

  lemma AdjustForNobody(db: Db, c: Command)
    requires c.AdjustHoursBy? && c.booking == None && Body(db, c).Ok?
    ensures Body(db, c).value.bookings == db.bookings
  {
    hide Ensure, ChangeHours, Refundable, AdjustAllowed;
    var delta := if c.debit then -c.amount else c.amount;
    HoursKeepRooms(db, c.resource, 0, None);
    HoursKeepRooms(Ensure(db, c.resource).value, c.resource, delta, None);
  }

  lemma StepCovered(db: Db, e: Event, id: nat)
    requires Inv(db) && !(e.Run? && CreditsHoursOf(e.command, id))
    requires id in db.bookings ==> HoursCovered(db.bookings[id])
    ensures id in Step(db, e).bookings ==> HoursCovered(Step(db, e).bookings[id])
  {
    hide Inv, Body, HoursCovered;
    var start := Fenced(db);
    if e.Run? && Execute(db, e.command).Ok? && id in Step(db, e).bookings {
      EnvironmentInv(db, start);
      FreshId(start);
      BodyGuarded(start, e.command);
      if id == Target(start, e.command) {
        TargetCovered(start, e.command, id);
      } else {
        OthersUntouched(start, Body(start, e.command).value, Target(start, e.command), id);
      }
    }
  }

  ghost predicate NoCreditsOf(events: seq<Event>, id: nat) {
    forall i :: 0 <= i < |events| && events[i].Run? ==> !CreditsHoursOf(events[i].command, id)
  }

  /** In every run that credits it no hours by hand, a confirmed booking has its hours debited. */
  lemma {:induction false} ConfirmedStaysCovered(now: nat, events: seq<Event>, id: nat)
    requires NoCreditsOf(events, id) && id in Reached(now, events).bookings
    ensures HoursCovered(Reached(now, events).bookings[id])
  {
    if events != [] {
      var last, rest := events[|events| - 1], events[..|events| - 1];
      assert NoCreditsOf(rest, id);
      if id in Reached(now, rest).bookings {
        ConfirmedStaysCovered(now, rest, id);
      }
      RunInv(now, rest);
      hide Inv, Step, HoursCovered, CreditsHoursOf;
      StepCovered(Reached(now, rest), last, id);
    }
  }

  /** A manual credit leaves a confirmed booking covered if and only if it takes no more than what is debited beyond its hours. */
  lemma CreditKeepsCoverIff(db: Db, c: Command, id: nat)
    requires Inv(db) && CreditsHoursOf(c, id) && Body(db, c).Ok?
    requires id in db.bookings && db.bookings[id].status == Confirmed
    ensures var after := Body(db, c).value;
      && id in after.bookings
      && (HoursCovered(after.bookings[id])
          <==> c.amount <= db.bookings[id].hoursDebited - db.bookings[id].quote.writeoff)
  {
    hide Inv, Body;
    AdjustMoves(db, c, id);
  }

  // ---------------------------------------------------------------- the balance and the quota

  /** In every run, a balance is above the quota only after a credit that no renewal has followed. */
  lemma BalanceWithinQuota(now: nat, events: seq<Event>, r: nat)
    requires r in Reached(now, events).accounts && !CreditedSince(Reached(now, events).ledger, r)
    ensures var a := Reached(now, events).accounts[r]; a.balance <= a.quota
  {
    hide After, CreditedSince;
    RunInv(now, events);
    AccountWithin(Reached(now, events), r);
  }

  /** A movement leaves the balance within the quota if and only if it is no more than is missing to it. */
  lemma MovementWithinIff(db: Db, r: nat, delta: int, booking: Option<nat>)
    requires ChangeHours(db, r, delta, booking).Ok?
    ensures r in db.profiles && r in ChangeHours(db, r, delta, booking).value.accounts
    ensures var a, after := UpToDate(db, r), ChangeHours(db, r, delta, booking).value.accounts[r];
      after.quota == a.quota && (after.balance <= after.quota <==> delta <= a.quota - a.balance)
  {
    hide Ensure, EnsureAccount, Today, SpentSince, Available;
    EnsureGives(db, r);
  }

  // ---------------------------------------------------------------- two runs

  /** A resident with ten hours a month, and the hour of the hall that is paid with one of them. */
  const OWNER := Profile(true, true, 600, None, 1, true)
  const RESIDENT := Party(Some(5), Some(5), false)
  const IN_HOURS := CreateBooking(HALL, Hour(SOON, Balance), RESIDENT, TERMS, Ahead(0, {}, None))
  const SPENT_ONE := Account(540, 600, 1, Date(1970, 1, 1), Date(1970, 1, 31), Date(1970, 2, 1), 2)

  /** The rows of opening the account and of spending the hour. */
  const FIRST_ROWS := [LedgerRow(5, None, Renewal, 600, 0, 600, 0), LedgerRow(5, Some(1), Debit, 60, 600, 540, 0)]

  function Booked(): Db {
    Step(Step(Empty(0), SetProfile(5, Some(OWNER))), Run(IN_HOURS))
  }

  /** The account of the resident is opened and an hour is taken from it. */
  lemma HourSpent(db: Db)
    requires db.now == 0 && db.accounts == map[] && db.ledger == [] && 5 in db.profiles && db.profiles[5] == OWNER
    ensures ChangeHours(db, 5, -60, Some(1)).Ok?
    ensures ChangeHours(db, 5, -60, Some(1)).value.accounts == map[5 := SPENT_ONE]
    ensures ChangeHours(db, 5, -60, Some(1)).value.ledger == FIRST_ROWS
  {
    DayZero();
    hide Today, MonthlyPeriod, Spent;
  }

  /** The booking and the account, as they are stored. */
  ghost predicate HourBooked(db: Db) {
    && Inv(db) && db.writable && db.now == 0
    && db.bookings.Keys == {1} && 5 in db.profiles && db.profiles[5] == OWNER
    && 5 in db.accounts && db.accounts[5] == SPENT_ONE && db.ledger == FIRST_ROWS
    && var b := db.bookings[1];
       && b.quote == HoursQuote(SOON) && b.resource == Some(5) && b.hoursDebited == 60
       && b.status in {AwaitingConfirmation, Confirmed} && b.payment == Paid && b.revision >= 1
  }

  lemma HourOpened(db: Db, q: Quote)
    requires db.now == 0 && db.accounts == map[] && db.ledger == [] && db.bookings == map[] && db.nextBooking == 1
    requires 5 in db.profiles && db.profiles[5] == OWNER && q == HoursQuote(SOON)
    ensures var o := InitialPayment(Balance, 0, false, 0);
      && Open(db, q, o, RESIDENT, TERMS).Ok?
      && var after := Open(db, q, o, RESIDENT, TERMS).value;
         && after.bookings == map[1 := NewBooking(q, o, RESIDENT, 60, 0, TERMS)]
         && after.accounts == map[5 := SPENT_ONE] && after.ledger == FIRST_ROWS
         && after.now == 0 && after.profiles == db.profiles && after.writable == db.writable
  {
    hide ChangeHours, HoursQuote, Touched, Days, NewBooking;
    var locked := LockDays(db, q.room, q.segments);
    HourSpent(locked);
    HoursKeepOthers(locked, 5, -60, Some(1));
    assert !Conflict(db.bookings, db.now, q.room, q.segments, None);
  }

  lemma HourPrepared(db: Db)
    requires db.now == 0
    ensures Create(db, HALL, Hour(SOON, Balance), RESIDENT, TERMS, Ahead(0, {}, None))
         == Open(db, HoursQuote(SOON), InitialPayment(Balance, 0, false, 0), RESIDENT, TERMS)
  {
    hide MakeQuote, AnyInPast, Open, HoursQuote;
    SlotsAhead();
    HoursQuoted(SOON);
    assert Prepare(HALL, Hour(SOON, Balance), RESIDENT, Ahead(0, {}, None)) == Ok(HoursQuote(SOON));
  }

  lemma BookedHour()
    ensures HourBooked(Booked())
    ensures Booked().bookings[1].status == AwaitingConfirmation && Booked().bookings[1].revision == 1
  {
    hide Inv, Create, Open, HoursQuote, PolicyFor;
    var start := Step(Empty(0), SetProfile(5, Some(OWNER)));
    HourPrepared(Fenced(start));
    HourOpened(Fenced(start), HoursQuote(SOON));
    EmptyInv(0);
    StepInv(Empty(0), SetProfile(5, Some(OWNER)));
    StepInv(start, Run(IN_HOURS));
  }

  lemma ConfirmBooked(db: Db)
    requires HourBooked(db) && db.bookings[1].status == AwaitingConfirmation && db.bookings[1].revision == 1
    ensures var after := Step(db, Run(ConfirmBooking(1, 1)));
      HourBooked(after) && after.bookings[1].status == Confirmed
  {
    hide Inv, Conflict, Refundable, HoursQuote, Touched, Days;
    EnvironmentInv(db, Fenced(db));
    RefundableIsRecorded(Fenced(db), 1);
    StepInv(db, Run(ConfirmBooking(1, 1)));
    Alone(Fenced(db), [Slot(SOON)]);
  }

  lemma Alone(db: Db, segments: seq<Segment>)
    requires db.bookings.Keys == {1}
    ensures !Conflict(db.bookings, db.now, 1, segments, Some(1))
  {
  }

  /** The account is up to date on its first day. */
  lemma NothingToEnsure(db: Db)
    requires db.now == 0 && 5 in db.profiles && db.profiles[5] == OWNER && 5 in db.accounts && db.accounts[5] == SPENT_ONE
    ensures Ensure(db, 5) == Ok(db)
  {
    DayZero();
    hide Today, Spent;
  }

  lemma CreditBooked(db: Db)
    requires HourBooked(db)
    ensures Body(db, AdjustHoursBy(5, 2, false, 60, Some(1))).Ok?
  {
    hide Inv, Refundable, HoursQuote, Ensure, Today, Recorded;
    RefundableIsRecorded(db, 1);
    NothingToEnsure(db);
  }

  /**
   A run that takes the hours from under a confirmed booking: an hour of the hall is booked for an hour of
   the resident's and confirmed, and the hour is then credited by hand.
   */
  lemma CoverLost()
    ensures var confirmed := Step(Booked(), Run(ConfirmBooking(1, 1)));
      && 1 in confirmed.bookings && confirmed.bookings[1].status == Confirmed && HoursCovered(confirmed.bookings[1])
      && var credited := Step(confirmed, Run(AdjustHoursBy(5, 2, false, 60, Some(1))));
         && 1 in credited.bookings && credited.bookings[1].status == Confirmed && !HoursCovered(credited.bookings[1])
  {
    hide Booked, Step, HoursQuote, Inv;
    BookedHour();
    ConfirmBooked(Booked());
    HourCredited(Step(Booked(), Run(ConfirmBooking(1, 1))));
  }

  lemma HourCredited(db: Db)
    requires HourBooked(db) && db.bookings[1].status == Confirmed
    ensures var credited := Step(db, Run(AdjustHoursBy(5, 2, false, 60, Some(1))));
      1 in credited.bookings && credited.bookings[1].status == Confirmed && !HoursCovered(credited.bookings[1])
  {
    hide Inv, Body, HoursQuote;
    EnvironmentInv(db, Fenced(db));
    CreditBooked(Fenced(db));
    AdjustMoves(Fenced(db), AdjustHoursBy(5, 2, false, 60, Some(1)), 1);
  }

  lemma RenewedThen(db: Db)
    requires db.now == 40 * DAY_MS && 5 in db.profiles && db.profiles[5] == OWNER
    requires 5 in db.accounts && db.accounts[5] == SPENT_ONE
    ensures UpToDate(db, 5).balance == UpToDate(db, 5).quota == 600
  {
    OrdinalOrder(Date(1970, 2, 1), Today(40 * DAY_MS));
    hide MonthlyPeriod, DateOfDay;
  }

  /**
   A run that lifts a balance above the quota: the booking paid with an hour of January is cancelled in
   February, when the account has been renewed.
   */
  lemma QuotaExceeded()
    ensures var after := Step(Step(Booked(), Wait(40 * DAY_MS)), Run(CancelAsAdmin(1, 1)));
      5 in after.accounts && after.accounts[5].quota == 600 && after.accounts[5].balance == 660
  {
    BookedHour();
    hide Booked, Inv;
    CancelLater(Booked());
  }

  lemma CancelLater(db: Db)
    requires HourBooked(db) && db.bookings[1].revision == 1
    ensures var after := Step(Step(db, Wait(40 * DAY_MS)), Run(CancelAsAdmin(1, 1)));
      5 in after.accounts && after.accounts[5].quota == 600 && after.accounts[5].balance == 660
  {
    hide Inv, LedgerInv, Refundable, HoursQuote, Touched, Days, ChangeHours, UpToDate;
    var start := Fenced(db.(now := db.now + 40 * DAY_MS));
    var locked := LockDays(start, 1, [Slot(SOON)]);
    RefundableIsRecorded(db, 1);
    RefundableKept(db, locked, 1, db.bookings[1]);
    Stored(db, 1);
    WaitLedger(db, 40 * DAY_MS);
    LedgerInvFrame(db.(now := db.now + 40 * DAY_MS), locked);
    RenewedThen(locked);
    CreditedLater(locked);
  }

  lemma CreditedLater(db: Db)
    requires LedgerInv(db)
    requires db.now == 40 * DAY_MS && 5 in db.profiles && db.profiles[5] == OWNER
    requires 5 in db.accounts && db.accounts[5] == SPENT_ONE
    ensures ChangeHours(db, 5, 60, Some(1)).Ok?
    ensures var d := ChangeHours(db, 5, 60, Some(1)).value;
      5 in d.accounts && d.accounts[5].quota == 600 && d.accounts[5].balance == 660
  {
    hide LedgerInv, Ensure, UpToDate;
    RenewedThen(db);
    CreditIff(db, 5, 60, Some(1));
    EnsureGives(db, 5);
  }
}
