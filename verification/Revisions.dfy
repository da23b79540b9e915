/**
 What a booking's revision is worth: it tells states of a booking apart in everything but the provider's
 payment, so a caller who is out of date in anything else is refused.
 */
module Revisions {
  import opened Calendar
  import opened Results
  import opened Segments
  import opened Catalog
  import opened Records
  import opened Hours
  import opened Bookings
  import opened Payments
  import opened Machine
  import opened Invariants
  import opened Examples
  import opened Effects

  /** The provider's payment is written without a new revision. */
  predicate SameButProvider(a: Booking, b: Booking) {
    b == a.(providerPayment := b.providerPayment)
  }

  /** Any other write counts one revision, and what is a hold afterwards was that same hold before. */
  predicate Written(before: Booking, after: Booking) {
    && (SameButProvider(before, after) || after.revision == before.revision + 1)
    && (after.status == Hold ==> SameOccupation(before, after))
  }

  /** The quote and the terms of payment are the same; how late the payment is may not be. */
  predicate SameDeal(a: Booking, b: Booking) {
    b.quote == a.quote && b.payBy == a.payBy && b.policy == a.policy.(state := b.policy.state)
  }

  /** The deal is the same, and if the payment is not, it has been settled or is open again. */
  predicate OnlySettles(a: Booking, b: Booking) {
    SameDeal(a, b) && b.policy == a.policy && b.payment in {a.payment, Paid, Unpaid}
  }

  lemma CancelWrites(db: Db, id: nat, b: Booking)
    requires id in db.bookings && db.bookings[id] == b && CancelInTransaction(db, id, b).Ok?
    ensures var after := CancelInTransaction(db, id, b).value;
      id in after.bookings && Written(b, after.bookings[id]) && OnlySettles(b, after.bookings[id])
  {
    hide Refund, PaidAmount, Touched, Days;
  }

  lemma SucceededWrites(db: Db, p: nat, id: nat, b: Booking)
    requires p < |db.payments| && id in db.bookings && PaymentSucceeded(db, p, id, b).Ok?
    ensures var after := PaymentSucceeded(db, p, id, b).value;
      id in after.bookings && Written(b, after.bookings[id]) && OnlySettles(b, after.bookings[id])
  {
    hide Conflict, Outstanding, DebitLate, Touched, Days;
  }

  lemma ChangeWrites(db: Db, id: nat, b: Booking, q: Quote, payBy: Method, terms: InvoiceTerms)
    requires ApplyChange(db, id, b, q, payBy, terms).Ok? && b.status != Hold
    ensures var after := ApplyChange(db, id, b, q, payBy, terms).value;
      id in after.bookings && Written(b, after.bookings[id]) && after.bookings[id].quote == q
  {
    hide AssertAvailable, AdjustHours, MethodAllowed, PaidAmount, PolicyFor, Touched, Days;
  }

  lemma AdjustWrites(db: Db, resource: nat, revision: int, debit: bool, amount: int, booking: Option<nat>, id: nat)
    requires AdjustManually(db, resource, revision, debit, amount, booking).Ok? && id in db.bookings
    ensures var after := AdjustManually(db, resource, revision, debit, amount, booking).value;
      id in after.bookings && Written(db.bookings[id], after.bookings[id])
      && OnlySettles(db.bookings[id], after.bookings[id])
  {
    hide Ensure, ChangeHours, Refundable, AdjustAllowed;
    HoursKeepRooms(db, resource, 0, None);
    HoursKeepRooms(Ensure(db, resource).value, resource, if debit then -amount else amount, booking);
  }

  lemma ResultWrites(db: Db, p: nat, succeeded: bool, id: nat)
    requires PaymentResult(db, p, succeeded).Ok? && db.payments[p].booking == id && id in db.bookings
    ensures var after := PaymentResult(db, p, succeeded).value;
      id in after.bookings && Written(db.bookings[id], after.bookings[id])
      && OnlySettles(db.bookings[id], after.bookings[id])
  {
    hide CancelInTransaction, PaymentSucceeded;
    var b := db.bookings[id];
    if succeeded {
      SucceededWrites(db, p, id, b);
    } else if b.status == Hold {
      CancelWrites(if db.payments[p].state == PaidIn then db else WithState(db, p, Void), id, b);
    }
  }

  lemma ExpireWrites(db: Db, id: nat)
    requires Expire(db, id).Ok? && id in db.bookings
    ensures var after := Expire(db, id).value;
      id in after.bookings && Written(db.bookings[id], after.bookings[id])
      && OnlySettles(db.bookings[id], after.bookings[id])
  {
    hide CancelInTransaction;
    if Expire(db, id) != Ok(db) {
      CancelWrites(db, id, db.bookings[id]);
    }
  }

  lemma ConfirmWrites(db: Db, id: nat, revision: int)
    requires Confirm(db, id, revision).Ok?
    ensures var after := Confirm(db, id, revision).value;
      id in after.bookings && Written(db.bookings[id], after.bookings[id])
      && OnlySettles(db.bookings[id], after.bookings[id])
  {
    hide Conflict, Refundable, Touched, Days;
  }

  lemma MarkPaidWrites(db: Db, id: nat, revision: int)
    requires MarkPaid(db, id, revision).Ok?
    ensures var after := MarkPaid(db, id, revision).value;
      id in after.bookings && Written(db.bookings[id], after.bookings[id])
      && OnlySettles(db.bookings[id], after.bookings[id])
  {
    hide Conflict, PaidAmount, Touched, Days;
  }

  lemma AttachWrites(db: Db, id: nat, pid: nat, amount: int, reported: Option<int>)
    requires AttachProviderPayment(db, id, pid, amount, reported).Ok?
    ensures var after := AttachProviderPayment(db, id, pid, amount, reported).value;
      id in after.bookings && Written(db.bookings[id], after.bookings[id])
      && OnlySettles(db.bookings[id], after.bookings[id])
  {
    hide KnownPayment;
  }

  lemma RequestedChangeWrites(db: Db, listing: Listing, id: nat, kind: Kind, input: ChangeInput,
                              revision: Option<int>, terms: InvoiceTerms, ahead: Ahead)
    requires id in db.bookings && Change(db, listing, id, kind, input, revision, terms, ahead).Ok?
    ensures var after := Change(db, listing, id, kind, input, revision, terms, ahead).value;
      && id in after.bookings && Written(db.bookings[id], after.bookings[id])
      && var b := db.bookings[id];
         && |b.quote.segments| > 0
         && ChangeQuote(listing, b.quote, b.payBy, b.hoursDebited, kind, input) == Ok(after.bookings[id].quote)
  {
    hide ChangeQuote, ApplyChange, AnyInPast, AllOver;
    var b := db.bookings[id];
    var q := ChangeQuote(listing, b.quote, b.payBy, b.hoursDebited, kind, input).value;
    ChangeWrites(db, id, b, q, Or(input.payBy, b.payBy), terms);
  }

  /** A command writes its booking with one new revision, the provider's payment apart, and only a change makes a new deal. */
  lemma TargetWritten(db: Db, c: Command, id: nat)
    requires Body(db, c).Ok? && id == Target(db, c) && id in db.bookings && db.nextBooking !in db.bookings
    ensures id in Body(db, c).value.bookings && Written(db.bookings[id], Body(db, c).value.bookings[id])
    ensures !c.ChangeBooking? ==> SameDeal(db.bookings[id], Body(db, c).value.bookings[id])
    ensures !c.ChangeBooking? && !c.TickPolicy? ==> OnlySettles(db.bookings[id], Body(db, c).value.bookings[id])
  {
    hide Create, Confirm, MarkPaid, CancelInTransaction, AllOver, Change, BlockRoom, PaymentResult, Expire,
      AdjustManually, Ensure, Refundable, Lateness, AttachProviderPayment;
    match c
    case ConfirmBooking(_, revision) => ConfirmWrites(db, id, revision);
    case MarkBookingPaid(_, revision) => MarkPaidWrites(db, id, revision);
    case CancelAsAdmin(_, _) => CancelWrites(db, id, db.bookings[id]);
    case CancelAsCustomer(_, _, _) => CancelWrites(db, id, db.bookings[id]);
    case ExpireHold(_) => ExpireWrites(db, id);
    case AttachPayment(_, pid, amount, reported) => AttachWrites(db, id, pid, amount, reported);
    case ReceiveResult(p, succeeded, _) => ResultNamesTarget(db, p, succeeded); ResultWrites(db, p, succeeded, id);
    case ChangeBooking(listing, _, kind, change, seen, terms, ahead) =>
      RequestedChangeWrites(db, listing, id, kind, change, seen, terms, ahead);
    case AdjustHoursBy(resource, revision, debit, amount, booking) =>
      AdjustWrites(db, resource, revision, debit, amount, booking, id);
    case EnsureHours(resource) => HoursKeepRooms(db, resource, 0, None);
    case _ =>
  }

  lemma StepWritten(db: Db, e: Event, id: nat)
    requires Inv(db) && id in db.bookings
    ensures id in Step(db, e).bookings && Written(db.bookings[id], Step(db, e).bookings[id])
    ensures !(e.Run? && e.command.ChangeBooking? && e.command.id == id) ==>
              SameDeal(db.bookings[id], Step(db, e).bookings[id])
    ensures !(e.Run? && (e.command.ChangeBooking? || e.command.TickPolicy?) && e.command.id == id) ==>
              OnlySettles(db.bookings[id], Step(db, e).bookings[id])
  {
    hide Inv, Body;
    var start := Fenced(db);
    if e.Run? && Execute(db, e.command).Ok? {
      EnvironmentInv(db, start);
      FreshId(start);
      BodyGuarded(start, e.command);
      if id == Target(start, e.command) {
        TargetWritten(start, e.command, id);
      } else {
        OthersUntouched(start, Body(start, e.command).value, Target(start, e.command), id);
      }
    }
  }

  /**
   Over every run a booking is never lost and its revision never falls; the revision is unchanged if and
   only if the booking is, the provider's payment apart; and a booking that is a hold has been that hold
   all along.
   */
  lemma {:induction false} RevisionTells(db: Db, events: seq<Event>, id: nat)
    requires Inv(db) && id in db.bookings
    ensures var after := After(db, events);
      && Inv(after) && id in after.bookings && db.bookings[id].revision <= after.bookings[id].revision
      && (after.bookings[id].revision == db.bookings[id].revision
          <==> SameButProvider(db.bookings[id], after.bookings[id]))
      && (after.bookings[id].status == Hold ==> SameOccupation(db.bookings[id], after.bookings[id]))
  {
    if events != [] {
      var last, rest := events[|events| - 1], events[..|events| - 1];
      RevisionTells(db, rest, id);
      hide Inv, Step;
      StepInv(After(db, rest), last);
      StepWritten(After(db, rest), last, id);
    }
  }

  /**
   The provider's payment shows why it is set apart: a booking held for an online payment has another state,
   but not another revision, once its payment is attached, and a comment that shows the revision of the
   state before is accepted.
   */
  lemma ProviderPaymentUnrevised()
    ensures var held := Step(Empty(0), Run(CreateBooking(HALL, Hour(SOON, CardOnline), Party(None, None, false),
                                                         TERMS, Ahead(0, {}, None))));
      var attached := Step(held, Run(AttachPayment(1, 77, 60000, Some(60000))));
      && 1 in held.bookings && 1 in attached.bookings
      && attached.bookings[1] != held.bookings[1] && attached.bookings[1].revision == held.bookings[1].revision
      && Execute(attached, CommentBooking(1, held.bookings[1].revision)).Ok?
  {
    hide Execute, HourQuote, Step;
    HeldOnline();
    AttachedUnrevised(Step(Empty(0), Run(CreateBooking(HALL, Hour(SOON, CardOnline), Party(None, None, false), TERMS,
                                                       Ahead(0, {}, None)))));
  }

  lemma HeldOnline()
    ensures var held := Step(Empty(0), Run(CreateBooking(HALL, Hour(SOON, CardOnline), Party(None, None, false), TERMS,
                                                         Ahead(0, {}, None))));
      1 in held.bookings && held.writable && held.bookings[1].revision == 1 && held.bookings[1].providerPayment == None
  {
    SlotsAhead();
    HourQuoted(SOON, CardOnline);
    hide MakeQuote, AnyInPast, Touched, Days, HourQuote, PolicyFor;
    var start, ahead, q := Fenced(Empty(0)), Ahead(0, {}, None), HourQuote(SOON);
    assert Prepare(HALL, Hour(SOON, CardOnline), Party(None, None, false), ahead) == Ok(q);
    assert !Conflict(start.bookings, start.now, q.room, q.segments, None);
  }

  lemma AttachedUnrevised(held: Db)
    requires 1 in held.bookings && held.writable && held.bookings[1].revision == 1
    requires held.bookings[1].providerPayment == None
    ensures var attached := Step(held, Run(AttachPayment(1, 77, 60000, Some(60000))));
      && 1 in attached.bookings
      && attached.bookings[1] != held.bookings[1] && attached.bookings[1].revision == held.bookings[1].revision
      && Execute(attached, CommentBooking(1, held.bookings[1].revision)).Ok?
  {
    hide KnownPayment;
  }

  /** Command `c` names booking `id` at the revision its caller has been shown. */
  predicate ShownAt(c: Command, id: nat, revision: int) {
    match c
    case ConfirmBooking(i, r) => i == id && r == revision
    case MarkBookingPaid(i, r) => i == id && r == revision
    case ResolveBooking(i, r) => i == id && r == revision
    case CommentBooking(i, r) => i == id && r == revision
    case CancelAsAdmin(i, r) => i == id && r == revision
    case CancelAsCustomer(i, seen, _) => i == id && seen == Some(revision)
    case ChangeBooking(_, i, _, _, seen, _, _) => i == id && seen == Some(revision)
    case _ => false
  }

  lemma WrongRevision(db: Db, c: Command, id: nat, revision: int)
    requires id in db.bookings && ShownAt(c, id, revision) && db.bookings[id].revision != revision
    ensures Body(db, c).Err? && (!c.ChangeBooking? ==> Body(db, c).error == RevisionConflict)
  {
    hide PrepareChange, ApplyChange, CancelInTransaction, Conflict, AllOver, Refundable, PaidAmount;
  }

  /**
   No lost update: a command that shows a revision is refused, in every run, once anything but the
   provider's payment has changed since.
   */
  lemma StaleCallerRefused(db: Db, events: seq<Event>, id: nat, c: Command)
    requires Inv(db) && id in db.bookings && ShownAt(c, id, db.bookings[id].revision)
    requires After(db, events).writable && After(db, events).bookings.Keys >= {id}
    requires !SameButProvider(db.bookings[id], After(db, events).bookings[id])
    ensures Step(After(db, events), Run(c)) == After(db, events)
    ensures Execute(After(db, events), c).Err?
    ensures !c.ChangeBooking? ==> Execute(After(db, events), c).error == RevisionConflict
  {
    hide After, Inv, Body;
    RevisionTells(db, events, id);
    WrongRevision(Fenced(After(db, events)), c, id, db.bookings[id].revision);
  }

  /** A comment, which asks for nothing but the revision, is accepted if and only if nothing else has changed. */
  lemma CommentAcceptedIff(db: Db, events: seq<Event>, id: nat)
    requires Inv(db) && id in db.bookings && db.bookings[id].revision >= 1
    requires After(db, events).writable && After(db, events).bookings.Keys >= {id}
    ensures Execute(After(db, events), CommentBooking(id, db.bookings[id].revision)).Ok?
       <==> SameButProvider(db.bookings[id], After(db, events).bookings[id])
  {
    hide After, Inv;
    RevisionTells(db, events, id);
  }

  // ---------------------------------------------------------------- terms over runs

  predicate Changes(e: Event, id: nat) {
    e.Run? && e.command.ChangeBooking? && e.command.id == id
  }

  /** In a run that does not change it, a booking keeps its quote and its terms of payment. */
  lemma {:induction false} DealKept(db: Db, events: seq<Event>, id: nat)
    requires Inv(db) && id in db.bookings && forall i :: 0 <= i < |events| ==> !Changes(events[i], id)
    ensures var after := After(db, events);
      Inv(after) && id in after.bookings && SameDeal(db.bookings[id], after.bookings[id])
  {
    if events != [] {
      var last, rest := events[|events| - 1], events[..|events| - 1];
      DealKept(db, rest, id);
      hide Inv, Step;
      StepInv(After(db, rest), last);
      StepWritten(After(db, rest), last, id);
    }
  }

  /**
   In every run that does not change it, a postpaid booking whose policy the worker has followed is shown
   as due for a warning from the third day after it was made, and as overdue from the seventh, to the second.
   */
  lemma PostpaidInRuns(db: Db, listing: Listing, input: QuoteInput, party: Party, terms: InvoiceTerms, ahead: Ahead,
                       events: seq<Event>)
    requires Inv(db) && Execute(db, CreateBooking(listing, input, party, terms, ahead)).Ok?
    requires input.payBy == Postpay && !party.guest
    requires forall i :: 0 <= i < |events| ==> !Changes(events[i], db.nextBooking)
    ensures var later := After(Step(db, Run(CreateBooking(listing, input, party, terms, ahead))), events);
      && db.nextBooking in later.bookings
      && var b := later.bookings[db.nextBooking];
         b.policy.state == Lateness(b.policy, later.now) ==>
           && (b.policy.state == Overdue <==> later.now >= Second(db.now) + 7 * DAY_MS)
           && (b.policy.state == Warning <==> Second(db.now) + 3 * DAY_MS <= later.now < Second(db.now) + 7 * DAY_MS)
           && (b.policy.state == Active <==> later.now < Second(db.now) + 3 * DAY_MS)
  {
    hide After, Inv, Create;
    var c := CreateBooking(listing, input, party, terms, ahead);
    StepInv(db, Run(c));
    NewPostpaid(Fenced(db), listing, input, party, terms, ahead);
    DealKept(Step(db, Run(c)), events, db.nextBooking);
  }

  lemma NewPostpaid(db: Db, listing: Listing, input: QuoteInput, party: Party, terms: InvoiceTerms, ahead: Ahead)
    requires Create(db, listing, input, party, terms, ahead).Ok? && input.payBy == Postpay && !party.guest
    ensures var after := Create(db, listing, input, party, terms, ahead).value;
      db.nextBooking in after.bookings
      && after.bookings[db.nextBooking].policy
         == Policy(PostpayPolicy, Second(db.now) + 3 * DAY_MS, Second(db.now) + 7 * DAY_MS, Active)
  {
    hide Create, Prepare, Open, MakeQuote, QuoteOk, InitialPayment, NewBooking;
    PreparedQuote(db, listing, input, party, terms, ahead);
    QuoteSound(listing, input, 0);
    var q := MakeQuote(listing, input, 0).value;
    var o := InitialPayment(Postpay, q.total, false, db.now);
    CreateUnfolds(db, listing, input, party, terms, ahead, q, o);
    OpenEffect(db, q, o, party, terms);
    SomeSegments(q);
    PostpayTerms(q, party, if o.status == Hold then 0 else q.writeoff, db.now, terms);
  }

  lemma SomeSegments(q: Quote)
    requires QuoteOk(q)
    ensures |q.segments| > 0
  {
  }

  lemma PostpayTerms(q: Quote, party: Party, hours: int, now: nat, terms: InvoiceTerms)
    requires |q.segments| > 0
    ensures NewBooking(q, InitialPayment(Postpay, q.total, false, now), party, hours, now, terms).policy
         == Policy(PostpayPolicy, Second(now) + 3 * DAY_MS, Second(now) + 7 * DAY_MS, Active)
  {
  }

  lemma PreparedQuote(db: Db, listing: Listing, input: QuoteInput, party: Party, terms: InvoiceTerms, ahead: Ahead)
    requires Create(db, listing, input, party, terms, ahead).Ok?
    ensures MakeQuote(listing, input, 0).Ok?
  {
    hide MakeQuote, AnyInPast, Open;
  }

  // ---------------------------------------------------------------- holds over runs

  /**
   In every run a hold made at a moment blocks its time until fifteen minutes later, to the second, and no
   longer, for as long as it is a hold.
   */
  lemma HoldLastsInRuns(db: Db, listing: Listing, input: QuoteInput, party: Party, terms: InvoiceTerms, ahead: Ahead,
                        events: seq<Event>)
    requires Inv(db) && Execute(db, CreateBooking(listing, input, party, terms, ahead)).Ok?
    ensures var held := Step(db, Run(CreateBooking(listing, input, party, terms, ahead)));
      var id, later := db.nextBooking, After(held, events);
      && id in later.bookings
      && (later.bookings[id].status == Hold ==>
            && (later.now + 1000 <= db.now + HOLD_MS ==> Blocks(later.bookings[id], later.now))
            && (later.now >= db.now + HOLD_MS ==> !Blocks(later.bookings[id], later.now)))
  {
    hide After, Inv, Create;
    var c := CreateBooking(listing, input, party, terms, ahead);
    StepInv(db, Run(c));
    NewHold(Fenced(db), listing, input, party, terms, ahead);
    RevisionTells(Step(db, Run(c)), events, db.nextBooking);
  }

  lemma NewHold(db: Db, listing: Listing, input: QuoteInput, party: Party, terms: InvoiceTerms, ahead: Ahead)
    requires Create(db, listing, input, party, terms, ahead).Ok?
    ensures var after := Create(db, listing, input, party, terms, ahead).value;
      db.nextBooking in after.bookings
      && (after.bookings[db.nextBooking].status == Hold ==>
            after.bookings[db.nextBooking].expiresAt == Some(Second(db.now + HOLD_MS)))
  {
    hide Prepare, AssertAvailable, OpeningHours, PolicyFor;
  }
}
