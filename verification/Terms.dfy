/**
 What a booking's terms of payment say of it: a status of postpayment belongs to a booking that is paid
 later. A policy that the worker has read before its transaction can break that.
 */
module Terms {
  import opened Calendar
  import opened Results
  import opened Segments
  import opened Catalog
  import opened Records
  import opened Hours
  import opened Bookings
  import opened Payments
  import opened Machine
  import opened Invariants
  import opened Examples
  import opened Effects
  import opened Theorems
  import opened Revisions
  import opened Policies
  import Worker

  /** The policy is that of the way the booking is paid. */
  predicate PolicyFits(b: Booking) {
    && (b.policy.kind == PostpayPolicy <==> b.payBy == Postpay)
    && (b.policy.kind == InvoicePolicy <==> b.payBy == Invoice)
  }

  predicate ShownAsPostpaid(b: Booking) {
    b.payment in {PostpayOpen, PostpayWarning, PostpayOverdue}
  }

  /** Only a booking that is paid later is shown as such. */
  predicate ShownRightly(b: Booking) {
    ShownAsPostpaid(b) ==> b.payBy == Postpay
  }

  // ---------------------------------------------------------------- where terms are made

  lemma PolicyForFits(q: Quote, payBy: Method, now: nat, terms: InvoiceTerms)
    requires |q.segments| > 0
    ensures var policy := PolicyFor(q, payBy, now, terms);
      && (policy.kind == PostpayPolicy <==> payBy == Postpay) && (policy.kind == InvoicePolicy <==> payBy == Invoice)
  {
  }

  lemma CreateFits(db: Db, listing: Listing, input: QuoteInput, party: Party, terms: InvoiceTerms, ahead: Ahead)
    requires Create(db, listing, input, party, terms, ahead).Ok?
    ensures var after := Create(db, listing, input, party, terms, ahead).value;
      && db.nextBooking in after.bookings
      && PolicyFits(after.bookings[db.nextBooking]) && ShownRightly(after.bookings[db.nextBooking])
  {
    hide Create, Prepare, Open, MakeQuote, PolicyFor, QuoteOk;
    PreparedQuote(db, listing, input, party, terms, ahead);
    QuoteSound(listing, input, 0);
    var q := MakeQuote(listing, input, 0).value;
    var o := InitialPayment(input.payBy, q.total, party.guest, db.now);
    CreateUnfolds(db, listing, input, party, terms, ahead, q, o);
    OpenEffect(db, q, o, party, terms);
    SomeSegments(q);
    PolicyForFits(q, o.payBy, db.now, terms);
  }

  lemma BlockFits(db: Db, listing: Listing, input: QuoteInput)
    requires BlockRoom(db, listing, input).Ok?
    ensures var after := BlockRoom(db, listing, input).value;
      && db.nextBooking in after.bookings
      && PolicyFits(after.bookings[db.nextBooking]) && ShownRightly(after.bookings[db.nextBooking])
  {
    hide MakeQuote, Conflict, Touched, Days;
  }

  lemma ChangeFits(db: Db, listing: Listing, id: nat, kind: Kind, input: ChangeInput, seen: Option<int>,
                   terms: InvoiceTerms, ahead: Ahead)
    requires Inv(db) && Change(db, listing, id, kind, input, seen, terms, ahead).Ok?
    ensures var after := Change(db, listing, id, kind, input, seen, terms, ahead).value;
      id in after.bookings && PolicyFits(after.bookings[id]) && ShownRightly(after.bookings[id])
  {
    hide Inv, ChangeQuote, ApplyChange, AnyInPast, AllOver, PolicyFor, PaidAmount, QuoteOk;
    var b := db.bookings[id];
    var q := ChangeQuote(listing, b.quote, b.payBy, b.hoursDebited, kind, input).value;
    Stored(db, id);
    ChangeSound(listing, b.quote, b.payBy, b.hoursDebited, kind, input);
    SomeSegments(q);
    ChangeParts(db, id, b, q, Or(input.payBy, b.payBy), terms);
    PolicyForFits(q, Or(input.payBy, b.payBy), db.now, terms);
  }

  /** Only a new booking and a block store what was not there. */
  lemma NewcomerMade(db: Db, c: Command, id: nat)
    requires Body(db, c).Ok? && id in Body(db, c).value.bookings && id !in db.bookings && id == Target(db, c)
    ensures c.CreateBooking? || c.Block?
  {
    hide Create, Conflict, Refundable, PaidAmount, Touched, Days, CancelInTransaction, AllOver, Change, PaymentSucceeded,
      PaymentCancelled, BlockRoom, Ensure, AdjustManually, KnownPayment, Lateness;
    match c
    case ChangeBooking(listing, _, kind, change, seen, terms, ahead) =>
      ChangeNames(db, listing, id, kind, change, seen, terms, ahead);
    case AdjustHoursBy(resource, revision, debit, amount, booking) =>
      AdjustKeepsKeys(db, resource, revision, debit, amount, booking);
    case EnsureHours(resource) => HoursKeepRooms(db, resource, 0, None);
    case _ =>
  }

  lemma ChangeNames(db: Db, listing: Listing, id: nat, kind: Kind, input: ChangeInput, seen: Option<int>,
                    terms: InvoiceTerms, ahead: Ahead)
    requires Change(db, listing, id, kind, input, seen, terms, ahead).Ok?
    ensures id in db.bookings
  {
    hide ApplyChange, PrepareChange;
  }

  lemma AdjustKeepsKeys(db: Db, resource: nat, revision: int, debit: bool, amount: int, booking: Option<nat>)
    requires AdjustManually(db, resource, revision, debit, amount, booking).Ok?
    ensures AdjustManually(db, resource, revision, debit, amount, booking).value.bookings.Keys == db.bookings.Keys
  {
    hide ChangeHours, Ensure, Refundable, AdjustAllowed;
    HoursKeepRooms(db, resource, 0, None);
    HoursKeepRooms(Ensure(db, resource).value, resource, if debit then -amount else amount, booking);
  }

  /** A step that made the booking, or changed it, gave it terms that fit. */
  lemma MadeFits(db: Db, c: Command, id: nat)
    requires Inv(db) && Body(db, c).Ok? && id in Body(db, c).value.bookings && id == Target(db, c)
    requires id in db.bookings ==> c.ChangeBooking?
    ensures PolicyFits(Body(db, c).value.bookings[id]) && ShownRightly(Body(db, c).value.bookings[id])
  {
    hide Inv, Create, Change, BlockRoom, PolicyFits, ShownRightly;
    if c.ChangeBooking? {
      ChangeFits(db, c.listing, c.id, c.kind, c.change, c.seen, c.terms, c.ahead);
    } else {
      NewcomerMade(db, c, id);
      if c.CreateBooking? {
        CreateFits(db, c.listing, c.input, c.party, c.terms, c.ahead);
      } else {
        BlockFits(db, c.listing, c.input);
      }
    }
  }

  // ---------------------------------------------------------------- the worker's policy

  /** A policy that is out of date: the worker has read a postpayment, and the booking is not paid later any more. */
  predicate OutOfDate(b: Booking, seen: Policy) {
    seen.kind == PostpayPolicy && b.payBy != Postpay
  }

  /** The policy has moved on since it was read, and its booking can be written. */
  predicate Applies(db: Db, id: nat, seen: Policy) {
    && id in db.bookings && Lateness(seen, db.now) != seen.state
    && db.bookings[id].status != Cancelled && db.bookings[id].payment != Paid
  }

  /**
   The worker shows a booking as postpaid that is not paid later if and only if the policy it has read is out
   of date, and has moved on.
   */
  lemma TickMislabelsIff(db: Db, id: nat, seen: Policy)
    requires id in db.bookings && ShownRightly(db.bookings[id])
    ensures PolicyTick(db, id, seen).Ok? && id in PolicyTick(db, id, seen).value.bookings
    ensures !ShownRightly(PolicyTick(db, id, seen).value.bookings[id])
       <==> Applies(db, id, seen) && OutOfDate(db.bookings[id], seen)
  {
  }

  /** The worker demands a prepayment of a profile if and only if such a policy is overdue for a booking of it. */
  lemma TickDemandsIff(db: Db, id: nat, seen: Policy, profile: nat)
    requires profile !in db.prepay
    ensures PolicyTick(db, id, seen).Ok?
    ensures profile in PolicyTick(db, id, seen).value.prepay
       <==> && Applies(db, id, seen) && db.bookings[id].profile == Some(profile)
            && seen.kind == PostpayPolicy && Lateness(seen, db.now) == Overdue
  {
  }

  // ---------------------------------------------------------------- every run

  /** In the run, no policy that is out of date is applied to the booking. */
  ghost predicate SeenInTime(now: nat, events: seq<Event>, id: nat) {
    forall i :: 0 <= i < |events| ==> InTime(Reached(now, events[..i]), events[i], id)
  }

  predicate InTime(db: Db, e: Event, id: nat) {
    e.Run? && e.command.TickPolicy? && e.command.id == id && Applies(db, id, e.command.policy) ==>
      !OutOfDate(db.bookings[id], e.command.policy)
  }

  lemma StepFits(db: Db, e: Event, id: nat)
    requires Inv(db) && id in Step(db, e).bookings
    requires id in db.bookings ==> PolicyFits(db.bookings[id])
    ensures PolicyFits(Step(db, e).bookings[id])
    ensures InTime(db, e, id) && (id in db.bookings ==> ShownRightly(db.bookings[id])) ==>
              ShownRightly(Step(db, e).bookings[id])
  {
    hide Inv, Body, PolicyFits, ShownRightly, InTime;
    if id in db.bookings && !(e.Run? && e.command.ChangeBooking? && e.command.id == id) {
      StepWritten(db, e, id);
      SameDealFits(db.bookings[id], Step(db, e).bookings[id]);
      if e.Run? && e.command.TickPolicy? && e.command.id == id {
        TickShows(db, id, e.command.policy);
      }
    } else if e.Run? && Execute(db, e.command).Ok? {
      WrittenFits(db, e.command, id);
    }
  }

  lemma SameDealFits(a: Booking, b: Booking)
    requires SameDeal(a, b)
    ensures PolicyFits(a) ==> PolicyFits(b)
    ensures OnlySettles(a, b) && ShownRightly(a) ==> ShownRightly(b)
  {
  }

  lemma TickShows(db: Db, id: nat, seen: Policy)
    requires id in db.bookings
    ensures var e := Run(TickPolicy(id, seen));
      && id in Step(db, e).bookings
      && (InTime(db, e, id) && ShownRightly(db.bookings[id]) ==> ShownRightly(Step(db, e).bookings[id]))
  {
    hide Lateness;
    if ShownRightly(db.bookings[id]) {
      TickMislabelsIff(Fenced(db), id, seen);
    }
  }

  lemma WrittenFits(db: Db, c: Command, id: nat)
    requires Inv(db) && Execute(db, c).Ok? && id in Step(db, Run(c)).bookings
    requires id in db.bookings ==> c.ChangeBooking? && c.id == id
    ensures PolicyFits(Step(db, Run(c)).bookings[id]) && ShownRightly(Step(db, Run(c)).bookings[id])
  {
    hide Inv, Body, PolicyFits, ShownRightly;
    var start := Fenced(db);
    EnvironmentInv(db, start);
    FreshId(start);
    BodyGuarded(start, c);
    if id != Target(start, c) {
      OthersUntouched(start, Body(start, c).value, Target(start, c), id);
    }
    MadeFits(start, c, id);
  }

  /**
   In every run a booking's policy is that of the way it is paid; and it is shown as postpaid only when it is
   paid later, as long as no policy that is out of date has been applied to it.
   */
  lemma {:induction false} TermsInRuns(now: nat, events: seq<Event>, id: nat)
    requires id in Reached(now, events).bookings
    ensures PolicyFits(Reached(now, events).bookings[id])
    ensures SeenInTime(now, events, id) ==> ShownRightly(Reached(now, events).bookings[id])
  {
    if events != [] {
      var last, rest := events[|events| - 1], events[..|events| - 1];
      if id in Reached(now, rest).bookings {
        TermsInRuns(now, rest, id);
      }
      RunInv(now, rest);
      hide Inv, Step, PolicyFits, ShownRightly, InTime;
      StepFits(Reached(now, rest), last, id);
      if SeenInTime(now, events, id) {
        EarlierInTime(now, events, id);
      }
    }
  }

  lemma EarlierInTime(now: nat, events: seq<Event>, id: nat)
    requires events != [] && SeenInTime(now, events, id)
    ensures var n := |events| - 1;
      SeenInTime(now, events[..n], id) && InTime(Reached(now, events[..n]), events[n], id)
  {
    hide Reached, InTime;
    var rest := events[..|events| - 1];
    forall i | 0 <= i < |rest| ensures InTime(Reached(now, rest[..i]), rest[i], id) {
      assert rest[..i] == events[..i];
    }
  }

  /** In every run the worker follows exactly the live unpaid bookings by invoice or to be paid later. */
  lemma FollowedIff(now: nat, events: seq<Event>, id: nat)
    requires id in Reached(now, events).bookings
    ensures var b := Reached(now, events).bookings[id];
      id in Worker.TrackedBookings(Reached(now, events))
      <==> b.status !in {Cancelled, Blocked} && b.payment != Paid && b.payBy in {Invoice, Postpay}
  {
    hide Reached;
    TermsInRuns(now, events, id);
  }

  // ---------------------------------------------------------------- a policy out of date

  /** A booking that is paid later, and its change to cash after the day it was to be paid. */
  const LATE := CreateBooking(HALL, Hour(LATER, Postpay), GUESTLESS, TERMS, Ahead(0, {}, None))
  const TO_CASH := ChangeBooking(HALL, 1, Edit, ChangeInput(None, None, None, None, Some(Cash), None, None), Some(1), TERMS,
                                 Ahead(WEEK_ON, {}, None))
  const UNPAID_YET := Policy(PostpayPolicy, 3 * DAY_MS, 7 * DAY_MS, Active)

  ghost predicate OneBooking(db: Db) {
    db.bookings.Keys == {1} && db.writable && db.prepay == {} && db.bookings[1].quote == HourQuote(LATER)
    && db.bookings[1].profile == Some(5) && db.bookings[1].resource == None
    && db.bookings[1].status == AwaitingPayment
  }

  lemma LateMade()
    ensures var made := Step(Empty(0), Run(LATE));
      && OneBooking(made) && made.now == 0 && made.bookings[1].revision == 1 && made.bookings[1].payBy == Postpay
      && made.bookings[1].policy == UNPAID_YET && PaidAmount(made.payments, 1) == 0
  {
    SlotsAhead();
    AheadOfLater();
    HourQuoted(LATER, Postpay);
    hide MakeQuote, AnyInPast, Touched, Days, HourQuote;
    var start, q := Fenced(Empty(0)), HourQuote(LATER);
    assert Prepare(HALL, Hour(LATER, Postpay), GUESTLESS, Ahead(0, {}, None)) == Ok(q);
    OpenPlain(start, q, InitialPayment(Postpay, q.total, false, 0), GUESTLESS, TERMS);
  }

  lemma AheadOfLater()
    ensures !AnyInPast([Slot(LATER)], 0)
  {
  }

  lemma CashQuoted(b: Booking)
    requires b.quote == HourQuote(LATER)
    ensures PrepareChange(b, HALL, Edit, TO_CASH.change, TO_CASH.ahead) == Ok(HourQuote(LATER))
  {
    SlotsAhead();
    HourQuoted(LATER, Cash);
    hide MakeQuote, AnyInPast;
    assert Requests([]) == [];
    assert ChangeRequest(b.quote, b.payBy, b.hoursDebited, Edit, TO_CASH.change) == Ok(Hour(LATER, Cash));
  }

  lemma CashApplied(db: Db, b: Booking, q: Quote)
    requires db.bookings.Keys == {1} && db.bookings[1] == b && b.resource == None && db.prepay == {}
    requires q.room == 1 && q.total == 60000 && q.writeoff == 0 && PaidAmount(db.payments, 1) == 0
    ensures ApplyChange(db, 1, b, q, Cash, TERMS).Ok?
    ensures var after := ApplyChange(db, 1, b, q, Cash, TERMS).value;
      && after.bookings == db.bookings[1 := ChangedBooking(b, q, Cash, 0, PolicyFor(q, Cash, db.now, TERMS))]
      && after.prepay == {} && after.now == db.now && after.writable == db.writable
  {
    hide Touched, Days, PaidAmount, PolicyFor, Conflict, ChangedBooking;
    NobodyElse(db);
  }

  lemma CashChanged(db: Db)
    requires OneBooking(db) && db.now == WEEK_ON && db.bookings[1].revision == 1 && PaidAmount(db.payments, 1) == 0
    ensures Execute(db, TO_CASH).Ok?
    ensures var after := Step(db, Run(TO_CASH));
      OneBooking(after) && after.now == db.now && after.bookings[1].payBy == Cash && after.bookings[1].payment == Unpaid
  {
    hide PrepareChange, ApplyChange, HourQuote, PaidAmount, PolicyFor;
    CashQuoted(db.bookings[1]);
    CashApplied(Fenced(db), db.bookings[1], HourQuote(LATER));
  }

  lemma NobodyElse(db: Db)
    requires db.bookings.Keys == {1}
    ensures forall segments :: !Conflict(db.bookings, db.now, 1, segments, Some(1))
  {
  }

  /**
   A run in which the worker reads a postpayment that is overdue, the booking is changed to cash, and the
   worker's transaction then shows it as overdue and demands a prepayment of its profile.
   */
  lemma CashShownOverdue()
    ensures var read := Step(Step(Empty(0), Run(LATE)), Wait(WEEK_ON));
      && 1 in read.bookings && read.bookings[1].policy == UNPAID_YET && Execute(read, TO_CASH).Ok?
      && var ticked := Step(Step(read, Run(TO_CASH)), Run(TickPolicy(1, UNPAID_YET)));
         && 1 in ticked.bookings && ticked.bookings[1].payBy == Cash && ticked.bookings[1].payment == PostpayOverdue
         && 5 in ticked.prepay
  {
    hide Execute, HourQuote, PaidAmount;
    LateMade();
    var read := Step(Step(Empty(0), Run(LATE)), Wait(WEEK_ON));
    CashChanged(read);
    CashTicked(Step(read, Run(TO_CASH)));
  }

  lemma CashTicked(db: Db)
    requires OneBooking(db) && db.now == WEEK_ON && db.bookings[1].payBy == Cash && db.bookings[1].payment == Unpaid
    ensures var ticked := Step(db, Run(TickPolicy(1, UNPAID_YET)));
      && 1 in ticked.bookings && ticked.bookings[1].payBy == Cash && ticked.bookings[1].payment == PostpayOverdue
      && 5 in ticked.prepay
  {
    hide HourQuote;
  }
}
