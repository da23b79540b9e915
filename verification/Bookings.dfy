/** The booking operations, each as a function from the store to the store it commits or an error. */
module Bookings {
  import opened Calendar
  import opened Results
  import opened Segments
  import opened Catalog
  import opened Records
  import opened Hours

  const HOLD_MS := 15 * 60000

  // ---------------------------------------------------------------- shared steps

  function FindBooking(db: Db, id: nat): Result<Booking> {
    if id in db.bookings then Ok(db.bookings[id]) else Err(NotFound)
  }

  /** `checkVersion`: the caller must have seen the current revision. */
  function SameRevision(b: Booking, revision: int): Result<()> {
    Need(revision >= 1 && revision == b.revision, RevisionConflict)
  }

  function PutBooking(db: Db, id: nat, b: Booking): Db {
    db.(bookings := db.bookings[id := b])
  }

  /** Increments the revision of the room-day document of every day of the segments. */
  function LockDays(db: Db, room: int, segments: seq<Segment>): Db {
    db.(roomDays := Touched(db.roomDays, room, Days(segments)))
  }

  function AssertAvailable(db: Db, room: int, segments: seq<Segment>, except: Option<nat>): Result<Db> {
    if Conflict(db.bookings, db.now, room, segments, except) then Err(SlotConflict)
    else Ok(LockDays(db, room, segments))
  }

  predicate AnyInPast(segments: seq<Segment>, now: int) {
    exists i :: 0 <= i < |segments| && StartOf(segments[i].date) + segments[i].start * 60000 <= now
  }

  predicate AllOver(segments: seq<Segment>, now: int) {
    forall i :: 0 <= i < |segments| ==> StartOf(segments[i].date) + segments[i].end * 60000 <= now
  }

  /** Invoice terms in hours; the source's defaults are 72 and 6. */
  datatype InvoiceTerms = InvoiceTerms(ttlHours: int, leadHours: int)

  function PaymentPolicy(payBy: Method, now: nat, date: Date, start: int, terms: InvoiceTerms): Policy {
    match payBy
    case Invoice =>
      Policy(InvoicePolicy, 0,
             Min(Second(now) + Max(1, terms.ttlHours) * HOUR_MS,
                 StartOf(date) + start * 60000 - Max(0, terms.leadHours) * HOUR_MS),
             Active)
    case Postpay => Policy(PostpayPolicy, Second(now) + 3 * DAY_MS, Second(now) + 7 * DAY_MS, Active)
    case _ => Policy(NoPolicy, 0, 0, NotTracked)
  }

  function PolicyFor(q: Quote, payBy: Method, now: nat, terms: InvoiceTerms): Policy {
    if |q.segments| == 0 then Policy(NoPolicy, 0, 0, NotTracked)
    else PaymentPolicy(payBy, now, q.segments[0].date, q.segments[0].start, terms)
  }

  // ---------------------------------------------------------------- create

  datatype Party = Party(resource: Option<nat>, profile: Option<nat>, guest: bool)

  datatype Opening = Opening(status: Status, payment: PaymentStatus, payBy: Method, expiresAt: Option<int>)

  function InitialPayment(payBy: Method, amount: int, guest: bool, now: nat): Opening {
    if guest then Opening(GuestRequest, Unpaid, if payBy in {Cash, Invoice} then payBy else Invoice, None)
    else if amount == 0 then Opening(AwaitingConfirmation, Paid, payBy, None)
    else if payBy in {CardOnline, QrCode} then Opening(Hold, Unpaid, payBy, Some(Second(now + HOLD_MS)))
    else Opening(AwaitingPayment, if payBy == Postpay then PostpayOpen else Unpaid, payBy, None)
  }

  predicate PayLater(payBy: Method) {
    payBy in {Postpay, Cash, Invoice}
  }

  function NewBooking(q: Quote, o: Opening, party: Party, hours: int, now: nat, terms: InvoiceTerms): Booking {
    Booking(q, o.status, o.payment, o.payBy, o.expiresAt, party.resource, party.profile, hours, false,
            PolicyFor(q, o.payBy, now, terms), None, 1, None)
  }

  /** Hours of a new booking are debited at once, unless it is held for an online payment. */
  function OpeningHours(db: Db, q: Quote, o: Opening, party: Party, id: nat): Result<Db> {
    if q.writeoff == 0 then Ok(db)
    else if party.resource.None? then Err(InsufficientBalance)
    else if o.status != Hold then ChangeHours(db, party.resource.value, -q.writeoff, Some(id))
    else
      var ready :- Ensure(db, party.resource.value);
      if party.resource.value in ready.accounts
         && Available(ready.accounts[party.resource.value], Today(ready.now)) < q.writeoff
      then Err(InsufficientBalance)
      else Ok(ready)
  }

  /**
   What a request has read of the store before its transaction begins, the moment and the demands of a
   prepayment, and the mark of the price its caller was shown, if it sends one.
   */
  datatype Ahead = Ahead(now: nat, prepay: set<nat>, shown: Option<PriceMark>)

  /** The request reads the store as it is. */
  predicate ReadAt(ahead: Ahead, db: Db) {
    ahead.now == db.now && ahead.prepay == db.prepay
  }

  /** What `create` checks and prices before its transaction. */
  function Prepare(listing: Listing, input: QuoteInput, party: Party, ahead: Ahead): Result<Quote> {
    var _ :- Need(!(PayLater(input.payBy) && party.profile.Some? && party.profile.value in ahead.prepay), PrepayRequired);
    var _ :- Need(input.payBy != NoMethod, ValidationError);
    var q :- MakeQuote(listing, input, 0);
    var _ :- Need(!AnyInPast(q.segments, ahead.now), SlotInPast);
    var _ :- Need(Or(ahead.shown, MarkOf(listing, q)) == MarkOf(listing, q), PriceChanged);
    Ok(q)
  }

  function Create(db: Db, listing: Listing, input: QuoteInput, party: Party, terms: InvoiceTerms, ahead: Ahead)
    : Result<Db>
  {
    var q :- Prepare(listing, input, party, ahead);
    Open(db, q, InitialPayment(input.payBy, q.total, party.guest, db.now), party, terms)
  }

  /** The transaction of `create`, once the price is known. */
  function Open(db: Db, q: Quote, o: Opening, party: Party, terms: InvoiceTerms): Result<Db> {
    var id := db.nextBooking;
    var _ :- Need(q.writeoff == 0 || party.resource.Some?, InsufficientBalance);
    var locked :- if o.status == GuestRequest then Ok(db) else AssertAvailable(db, q.room, q.segments, None);
    var paid :- OpeningHours(locked, q, o, party, id);
    var hours := if o.status == Hold then 0 else q.writeoff;
    Ok(PutBooking(paid, id, NewBooking(q, o, party, hours, db.now, terms)).(nextBooking := id + 1))
  }

  // ---------------------------------------------------------------- actions of an administrator

  function Confirm(db: Db, id: nat, revision: int): Result<Db> {
    var b :- FindBooking(db, id);
    var _ :- SameRevision(b, revision);
    var _ :- Need(b.status != Cancelled, InvalidState);
    var _ :- Need(b.payBy == Postpay || b.payment == Paid, PaymentRequired);
    var _ :- Need(b.quote.writeoff <= Refundable(db, id, b), HoursRequired);
    var _ :- Need(b.status != Blocked, InvalidState);
    var locked :- AssertAvailable(db, b.quote.room, b.quote.segments, Some(id));
    Ok(PutBooking(locked, id,
                  b.(status := Confirmed, expiresAt := None, attention := false, revision := b.revision + 1)))
  }

  function Settled(b: Booking, conflict: bool): Booking {
    b.(payment := Paid, expiresAt := None,
       status := if conflict then AwaitingResolution else if b.status == Confirmed then Confirmed
                 else AwaitingConfirmation,
       attention := conflict, revision := b.revision + 1)
  }

  /** A payment received by hand settles whatever is outstanding, even when the slot is gone. */
  function MarkPaid(db: Db, id: nat, revision: int): Result<Db> {
    var b :- FindBooking(db, id);
    var _ :- SameRevision(b, revision);
    var _ :- Need(b.status != Cancelled, InvalidState);
    var _ :- Need(b.payBy in {Cash, Invoice, Postpay}, InvalidState);
    if b.payment == Paid then Ok(db)
    else
      var due := Max(0, b.quote.total - PaidAmount(db.payments, id));
      var locked := LockDays(db.(payments := db.payments + [Payment(id, None, due, PaidIn)]),
                             b.quote.room, b.quote.segments);
      var conflict := Conflict(db.bookings, db.now, b.quote.room, b.quote.segments, Some(id));
      Ok(PutBooking(locked, id, Settled(b, conflict)))
  }

  function ResolveAttention(db: Db, id: nat, revision: int): Result<Db> {
    var b :- FindBooking(db, id);
    var _ :- SameRevision(b, revision);
    var _ :- Need(b.status != AwaitingResolution, ConflictUnresolved);
    var _ :- Need(b.status == Cancelled || b.quote.writeoff <= Refundable(db, id, b), HoursRequired);
    Ok(PutBooking(db, id, b.(attention := false, revision := b.revision + 1)))
  }

  function Comment(db: Db, id: nat, revision: int): Result<Db> {
    var b :- FindBooking(db, id);
    var _ :- SameRevision(b, revision);
    Ok(PutBooking(db, id, b.(revision := b.revision + 1)))
  }

  // ---------------------------------------------------------------- cancelling

  function CancelledBooking(b: Booking, received: int): Booking {
    b.(status := Cancelled, expiresAt := None, hoursDebited := 0, attention := received > 0, revision := b.revision + 1)
  }

  /** Cancelling gives back the outstanding hours; money is never returned here. */
  function CancelInTransaction(db: Db, id: nat, b: Booking): Result<Db> {
    if b.status == Cancelled then Ok(db)
    else
      var refunded :- Refund(LockDays(db, b.quote.room, b.quote.segments), id, b);
      Ok(PutBooking(refunded, id, CancelledBooking(b, PaidAmount(db.payments, id))))
  }

  function CancelByAdmin(db: Db, id: nat, revision: int): Result<Db> {
    var b :- FindBooking(db, id);
    var _ :- SameRevision(b, revision);
    CancelInTransaction(db, id, b)
  }

  function CancelByCustomer(db: Db, id: nat, revision: Option<int>, resident: bool): Result<Db> {
    var b :- FindBooking(db, id);
    var _ :- if revision.Some? then SameRevision(b, revision.value) else Ok(());
    var _ :- Need(b.status in {Hold, GuestRequest, AwaitingConfirmation, AwaitingPayment, Confirmed, PaidUp, Cancelled},
                  InvalidState);
    var _ :- Need(!(resident && b.status != Cancelled && AllOver(b.quote.segments, db.now)), InvalidState);
    CancelInTransaction(db, id, b)
  }

  // ---------------------------------------------------------------- edit, transfer, extend

  predicate Changeable(s: Status) {
    s in {Confirmed, PaidUp, AwaitingPayment, AwaitingConfirmation, AwaitingResolution}
  }

  /** Brings the hours written off for a booking to what its new quote asks for. */
  function AdjustHours(db: Db, id: nat, b: Booking, writeoff: int): Result<Db> {
    var delta := writeoff - Refundable(db, id, b);
    if delta == 0 then Ok(db)
    else if b.resource.None? then Err(InsufficientBalance)
    else if delta > 0 then ChangeHours(db, b.resource.value, -delta, Some(id))
    else ChangeHours(db, b.resource.value, Min(-delta, Refundable(db, id, b)), Some(id))
  }

  /** The refusals that depend on how the difference is to be paid. */
  function MethodAllowed(db: Db, b: Booking, payBy: Method, due: bool): Result<()> {
    if PayLater(payBy) && b.profile.Some? && b.profile.value in db.prepay then Err(PrepayRequired)
    else if due && payBy == Invoice && !(b.profile.Some? && b.profile.value in db.profiles
                                         && db.profiles[b.profile.value].complete) then Err(ProfileDataRequired)
    else if due && payBy == Balance then Err(InsufficientBalance)
    else if payBy == NoMethod then Err(ValidationError)
    else if due && payBy in {CardOnline, QrCode} then Err(PaymentMethodRequired)
    else Ok(())
  }

  function ChangedBooking(b: Booking, q: Quote, payBy: Method, received: int, policy: Policy): Booking {
    var due := q.total > received;
    b.(quote := q, hoursDebited := q.writeoff,
       status := if due then AwaitingPayment
                 else if b.status == AwaitingResolution then AwaitingConfirmation else b.status,
       payment := if due then (if payBy == Postpay then PostpayOpen else Unpaid) else Paid,
       payBy := payBy, attention := received > q.total, policy := policy, revision := b.revision + 1)
  }

  /** The transaction of `change`, once the new quote is known. */
  function ApplyChange(db: Db, id: nat, b: Booking, q: Quote, payBy: Method, terms: InvoiceTerms): Result<Db> {
    var locked :- AssertAvailable(LockDays(db, b.quote.room, b.quote.segments), q.room, q.segments, Some(id));
    var moved :- AdjustHours(locked, id, b, q.writeoff);
    var received := PaidAmount(db.payments, id);
    var _ :- MethodAllowed(db, b, payBy, q.total > received);
    Ok(PutBooking(moved, id, ChangedBooking(b, q, payBy, received, PolicyFor(q, payBy, db.now, terms))))
  }

  /** What `change` checks and prices before its transaction; an extension is marked without its services. */
  function PrepareChange(b: Booking, listing: Listing, kind: Kind, input: ChangeInput, ahead: Ahead): Result<Quote> {
    var _ :- Need(|b.quote.segments| > 0, ValidationError);
    var q :- ChangeQuote(listing, b.quote, b.payBy, b.hoursDebited, kind, input);
    var _ :- Need(kind == Extend || !AnyInPast(q.segments, ahead.now), SlotInPast);
    var _ :- Need(kind != Extend || !AllOver(b.quote.segments, ahead.now), InvalidState);
    var mark := MarkOf(listing, if kind == Extend then q.(services := []) else q);
    var _ :- Need(Or(ahead.shown, mark) == mark, PriceChanged);
    Ok(q)
  }

  function Change(db: Db, listing: Listing, id: nat, kind: Kind, input: ChangeInput, revision: Option<int>,
                  terms: InvoiceTerms, ahead: Ahead): Result<Db>
  {
    var b :- FindBooking(db, id);
    var q :- PrepareChange(b, listing, kind, input, ahead);
    var _ :- SameRevision(b, Or(revision, b.revision));
    var _ :- Need(Changeable(b.status), InvalidState);
    ApplyChange(db, id, b, q, Or(input.payBy, b.payBy), terms)
  }

  // ---------------------------------------------------------------- blocking a room

  /** What `block` prices before its transaction. */
  function PrepareBlock(listing: Listing, input: QuoteInput): Result<Quote> {
    MakeQuote(listing, input.(payBy := Cash, services := [], writeoff := 0), 0)
  }

  function BlockRoom(db: Db, listing: Listing, input: QuoteInput): Result<Db> {
    var q :- PrepareBlock(listing, input);
    var locked :- AssertAvailable(db, q.room, q.segments, None);
    var id := db.nextBooking;
    Ok(PutBooking(locked, id,
                  Booking(q, Blocked, Unpaid, NoMethod, None, None, None, 0, false,
                          Policy(NoPolicy, 0, 0, NotTracked), None, 1, None)).(nextBooking := id + 1))
  }

  // ---------------------------------------------------------------- manual adjustment of hours

  function AdjustAllowed(db: Db, resource: nat, debit: bool, amount: int, booking: nat): Result<()> {
    if booking !in db.bookings || db.bookings[booking].resource != Some(resource) then Err(InvalidBooking)
    else if !debit && Refundable(db, booking, db.bookings[booking]) < amount then Err(RefundExceedsDebit)
    else Ok(())
  }

  /** Records on a booking what its ledger says, after a manual movement. */
  function Recorded(db: Db, booking: Option<nat>): Db {
    if booking.None? || booking.value !in db.bookings then db
    else
      var b := db.bookings[booking.value];
      PutBooking(db, booking.value,
                 b.(hoursDebited := Refundable(db, booking.value, b), revision := b.revision + 1))
  }

  function AdjustManually(db: Db, resource: nat, revision: int, debit: bool, amount: int, booking: Option<nat>)
    : Result<Db>
  {
    var _ :- Need(amount >= 1, ValidationError);
    var ready :- Ensure(db, resource);
    var _ :- Need(resource in ready.accounts && ready.accounts[resource].revision == revision, RevisionConflict);
    var _ :- if booking.Some? then AdjustAllowed(ready, resource, debit, amount, booking.value) else Ok(());
    var moved :- ChangeHours(ready, resource, if debit then -amount else amount, booking);
    Ok(Recorded(moved, booking))
  }
}
