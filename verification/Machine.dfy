/** The operations as one transition system, and what every reachable store satisfies. */
module Machine {
  import opened Calendar
  import opened Results
  import opened Segments
  import opened Catalog
  import opened Records
  import opened Hours
  import opened Bookings
  import opened Payments

  /** The commands of clients, administrators, the payment provider and the worker. */
  datatype Command =
    | CreateBooking(listing: Listing, input: QuoteInput, party: Party, terms: InvoiceTerms, ahead: Ahead)
    | ConfirmBooking(id: nat, revision: int)
    | MarkBookingPaid(id: nat, revision: int)
    | ResolveBooking(id: nat, revision: int)
    | CommentBooking(id: nat, revision: int)
    | CancelAsAdmin(id: nat, revision: int)
    | CancelAsCustomer(id: nat, seen: Option<int>, resident: bool)
    | ChangeBooking(listing: Listing, id: nat, kind: Kind, change: ChangeInput, seen: Option<int>, terms: InvoiceTerms,
                    ahead: Ahead)
    | Block(listing: Listing, input: QuoteInput)
    | AttachPayment(id: nat, pid: nat, amount: int, reported: Option<int>)
    | ReceiveResult(payment: nat, succeeded: bool, reported: Option<int>)
    | FlagPayment(id: nat)
    | ExpireHold(id: nat)
    | TickPolicy(id: nat, policy: Policy)
    | Invoiced(id: nat, invoice: nat)
    | AdjustHoursBy(resource: nat, revision: int, debit: bool, amount: int, booking: Option<nat>)
    | EnsureHours(resource: nat)

  /** The body of a command, run inside its transaction. */
  function Body(db: Db, c: Command): Result<Db> {
    match c
    case CreateBooking(listing, input, party, terms, ahead) => Create(db, listing, input, party, terms, ahead)
    case ConfirmBooking(id, revision) => Confirm(db, id, revision)
    case MarkBookingPaid(id, revision) => MarkPaid(db, id, revision)
    case ResolveBooking(id, revision) => ResolveAttention(db, id, revision)
    case CommentBooking(id, revision) => Comment(db, id, revision)
    case CancelAsAdmin(id, revision) => CancelByAdmin(db, id, revision)
    case CancelAsCustomer(id, seen, resident) => CancelByCustomer(db, id, seen, resident)
    case ChangeBooking(listing, id, kind, change, seen, terms, ahead) =>
      Change(db, listing, id, kind, change, seen, terms, ahead)
    case Block(listing, input) => BlockRoom(db, listing, input)
    case AttachPayment(id, pid, amount, reported) => AttachProviderPayment(db, id, pid, amount, reported)
    case ReceiveResult(payment, succeeded, reported) => CheckedResult(db, payment, succeeded, reported)
    case FlagPayment(id) => FlagUncertain(db, id)
    case ExpireHold(id) => Expire(db, id)
    case TickPolicy(id, policy) => PolicyTick(db, id, policy)
    case Invoiced(id, invoice) => IssueInvoice(db, id, invoice)
    case AdjustHoursBy(resource, revision, debit, amount, booking) =>
      AdjustManually(db, resource, revision, debit, amount, booking)
    case EnsureHours(resource) => Ensure(db, resource)
  }

  /** Checking that writes are allowed increments the fence. */
  function Fenced(db: Db): Db {
    db.(fence := db.fence + 1)
  }

  /** The fence is incremented before the body runs; a refused command leaves no trace at all. */
  function Execute(db: Db, c: Command): Result<Db> {
    if !db.writable then Err(Maintenance)
    else Body(Fenced(db), c)
  }

  datatype Event =
    | Run(command: Command)
    | Wait(ms: nat)
    | SetProfile(id: nat, profile: Option<Profile>)
    | SetWritable(on: bool)

  function Step(db: Db, e: Event): Db {
    match e
    case Run(c) => (match Execute(db, c) case Ok(after) => after case Err(_) => db)
    case Wait(ms) => db.(now := db.now + ms)
    case SetProfile(id, Some(profile)) => db.(profiles := db.profiles[id := profile])
    case SetProfile(id, None) => db.(profiles := db.profiles - {id})
    case SetWritable(on) => db.(writable := on, fence := db.fence + 1)
  }

  function After(db: Db, events: seq<Event>): Db {
    if events == [] then db else Step(After(db, events[..|events| - 1]), events[|events| - 1])
  }

  function Empty(now: nat): Db {
    Db(now, true, 0, map[], 1, map[], [], map[], [], map[], {})
  }

  /** The booking a command may write. */
  function Target(db: Db, c: Command): nat {
    match c
    case CreateBooking(_, _, _, _, _) => db.nextBooking
    case Block(_, _) => db.nextBooking
    case ReceiveResult(p, _, _) => if p < |db.payments| then db.payments[p].booking else 0
    case AdjustHoursBy(_, _, _, _, booking) => Or(booking, 0)
    case EnsureHours(_) => 0
    case _ => c.id
  }

  // ---------------------------------------------------------------- effects on availability

  /** The part of a booking that decides which time it occupies, and until when. */
  predicate SameOccupation(a: Booking, b: Booking) {
    && a.quote.room == b.quote.room && a.quote.segments == b.quote.segments
    && a.status == b.status && a.expiresAt == b.expiresAt
  }

  /** Every day of the segments has had its room-day document written. */
  ghost predicate Locked(before: RoomDays, after: RoomDays, room: int, segments: seq<Segment>) {
    forall i :: 0 <= i < |segments| ==>
      Revision(after, room, segments[i].date) > Revision(before, room, segments[i].date)
  }

  ghost predicate RevisionsGrow(before: RoomDays, after: RoomDays) {
    forall room, day :: Revision(before, room, day) <= Revision(after, room, day)
  }

  /**
   What a command owes the rooms: it writes one booking, and if that booking now occupies time it did
   not occupy before, the time was free and every room-day of it has been written.
   */
  ghost predicate Guarded(before: Db, after: Db, id: nat) {
    && RevisionsGrow(before.roomDays, after.roomDays)
    && before.nextBooking <= after.nextBooking
    && (id in after.bookings ==> id in before.bookings || id < after.nextBooking)
    && before.bookings.Keys <= after.bookings.Keys <= before.bookings.Keys + {id}
    && (forall j :: j in before.bookings && j != id ==> after.bookings[j] == before.bookings[j])
    && (id in after.bookings ==>
          var b := after.bookings[id];
          || !BlockingStatus(b.status)
          || (id in before.bookings && SameOccupation(before.bookings[id], b))
          || (&& !Conflict(before.bookings, before.now, b.quote.room, b.quote.segments, Some(id))
              && Locked(before.roomDays, after.roomDays, b.quote.room, b.quote.segments)))
  }

  lemma LockedByLockDays(db: Db, room: int, segments: seq<Segment>)
    ensures Locked(db.roomDays, LockDays(db, room, segments).roomDays, room, segments)
    ensures RevisionsGrow(db.roomDays, LockDays(db, room, segments).roomDays)
  {
    forall i | 0 <= i < |segments| ensures segments[i].date in Days(segments) {
    }
  }

  /** Availability without an exception is availability with any id that is not stored yet. */
  lemma ConflictExcept(bookings: map<nat, Booking>, now: int, room: int, segments: seq<Segment>, id: nat)
    requires id !in bookings
    ensures Conflict(bookings, now, room, segments, None) <==> Conflict(bookings, now, room, segments, Some(id))
  {
  }

  /** A step that keeps hours and payments to itself: rooms and bookings stay as they are. */
  ghost predicate KeepsRooms(before: Db, after: Db) {
    && after.bookings == before.bookings && after.roomDays == before.roomDays
    && after.nextBooking == before.nextBooking
  }

  lemma HoursKeepRooms(db: Db, resource: nat, delta: int, booking: Option<nat>)
    ensures Ensure(db, resource).Ok? ==> KeepsRooms(db, Ensure(db, resource).value)
    ensures ChangeHours(db, resource, delta, booking).Ok? ==>
              KeepsRooms(db, ChangeHours(db, resource, delta, booking).value)
  {
    hide EnsureAccount, Today, SpentSince, Available, Net, Revision, Conflict;
  }

  lemma PutGuarded(before: Db, mid: Db, id: nat, b: Booking, next: nat)
    requires before.nextBooking <= next && (id in before.bookings || id < next)
    requires mid.bookings == before.bookings && RevisionsGrow(before.roomDays, mid.roomDays)
    requires || !BlockingStatus(b.status)
             || (id in before.bookings && SameOccupation(before.bookings[id], b))
             || (&& !Conflict(before.bookings, before.now, b.quote.room, b.quote.segments, Some(id))
                 && Locked(before.roomDays, mid.roomDays, b.quote.room, b.quote.segments))
    ensures Guarded(before, PutBooking(mid, id, b).(nextBooking := next), id)
  {
  }

  lemma CancelGuarded(db: Db, id: nat, b: Booking)
    requires id in db.bookings && CancelInTransaction(db, id, b).Ok?
    ensures Guarded(db, CancelInTransaction(db, id, b).value, id)
  {
    hide ChangeHours, Net;
    if b.status != Cancelled {
      LockedByLockDays(db, b.quote.room, b.quote.segments);
      var locked := LockDays(db, b.quote.room, b.quote.segments);
      if b.resource.Some? {
        HoursKeepRooms(locked, b.resource.value, Refundable(locked, id, b), Some(id));
      }
      PutGuarded(db, Refund(locked, id, b).value, id, CancelledBooking(b, PaidAmount(db.payments, id)),
                 db.nextBooking);
    }
  }

  lemma OpenGuarded(db: Db, q: Quote, o: Opening, party: Party, terms: InvoiceTerms)
    requires db.nextBooking !in db.bookings && Open(db, q, o, party, terms).Ok?
    ensures Guarded(db, Open(db, q, o, party, terms).value, db.nextBooking)
  {
    hide ChangeHours, Ensure, PolicyFor, Conflict, Available;
    var id := db.nextBooking;
    LockedByLockDays(db, q.room, q.segments);
    ConflictExcept(db.bookings, db.now, q.room, q.segments, id);
    var locked := if o.status == GuestRequest then db else LockDays(db, q.room, q.segments);
    if party.resource.Some? {
      HoursKeepRooms(locked, party.resource.value, -q.writeoff, Some(id));
    }
    var hours := if o.status == Hold then 0 else q.writeoff;
    PutGuarded(db, OpeningHours(locked, q, o, party, id).value, id, NewBooking(q, o, party, hours, db.now, terms),
               id + 1);
  }

  lemma ConfirmGuarded(db: Db, id: nat, revision: int)
    requires Confirm(db, id, revision).Ok?
    ensures Guarded(db, Confirm(db, id, revision).value, id)
  {
    hide Conflict, Net;
    var b := db.bookings[id];
    LockedByLockDays(db, b.quote.room, b.quote.segments);
    PutGuarded(db, LockDays(db, b.quote.room, b.quote.segments), id,
               b.(status := Confirmed, expiresAt := None, attention := false, revision := b.revision + 1), db.nextBooking);
  }

  lemma MarkPaidGuarded(db: Db, id: nat, revision: int)
    requires MarkPaid(db, id, revision).Ok?
    ensures Guarded(db, MarkPaid(db, id, revision).value, id)
  {
    hide Conflict, PaidAmount;
    var b := db.bookings[id];
    LockedByLockDays(db, b.quote.room, b.quote.segments);
    var conflict := Conflict(db.bookings, db.now, b.quote.room, b.quote.segments, Some(id));
    var due := Max(0, b.quote.total - PaidAmount(db.payments, id));
    var paid := db.(payments := db.payments + [Payment(id, None, due, PaidIn)]);
    PutGuarded(db, LockDays(paid, b.quote.room, b.quote.segments), id, Settled(b, conflict), db.nextBooking);
  }

  lemma ApplyChangeGuarded(db: Db, id: nat, b: Booking, q: Quote, payBy: Method, terms: InvoiceTerms)
    requires id in db.bookings && db.bookings[id] == b && ApplyChange(db, id, b, q, payBy, terms).Ok?
    ensures Guarded(db, ApplyChange(db, id, b, q, payBy, terms).value, id)
  {
    hide Conflict, PaidAmount, ChangeHours, Net, PolicyFor, MethodAllowed;
    var first := LockDays(db, b.quote.room, b.quote.segments);
    var locked := LockDays(first, q.room, q.segments);
    LockedByLockDays(db, b.quote.room, b.quote.segments);
    LockedByLockDays(first, q.room, q.segments);
    var delta := q.writeoff - Refundable(locked, id, b);
    if b.resource.Some? {
      HoursKeepRooms(locked, b.resource.value, -delta, Some(id));
      HoursKeepRooms(locked, b.resource.value, Min(-delta, Refundable(locked, id, b)), Some(id));
    }
    var received := PaidAmount(db.payments, id);
    PutGuarded(db, AdjustHours(locked, id, b, q.writeoff).value, id,
               ChangedBooking(b, q, payBy, received, PolicyFor(q, payBy, db.now, terms)), db.nextBooking);
  }

  lemma ChangeGuarded(db: Db, listing: Listing, id: nat, kind: Kind, input: ChangeInput, seen: Option<int>,
                      terms: InvoiceTerms, ahead: Ahead)
    requires Change(db, listing, id, kind, input, seen, terms, ahead).Ok?
    ensures Guarded(db, Change(db, listing, id, kind, input, seen, terms, ahead).value, id)
  {
    hide ChangeQuote, ApplyChange, AnyInPast, AllOver;
    var b := db.bookings[id];
    var q := ChangeQuote(listing, b.quote, b.payBy, b.hoursDebited, kind, input).value;
    ApplyChangeGuarded(db, id, b, q, Or(input.payBy, b.payBy), terms);
  }

  lemma BlockGuarded(db: Db, listing: Listing, input: QuoteInput)
    requires db.nextBooking !in db.bookings && BlockRoom(db, listing, input).Ok?
    ensures Guarded(db, BlockRoom(db, listing, input).value, db.nextBooking)
  {
    hide MakeQuote, Conflict;
    var q := MakeQuote(listing, input.(payBy := Cash, services := [], writeoff := 0), 0).value;
    LockedByLockDays(db, q.room, q.segments);
    ConflictExcept(db.bookings, db.now, q.room, q.segments, db.nextBooking);
    var b := Booking(q, Blocked, Unpaid, NoMethod, None, None, None, 0, false,
                     Policy(NoPolicy, 0, 0, NotTracked), None, 1, None);
    PutGuarded(db, LockDays(db, q.room, q.segments), db.nextBooking, b, db.nextBooking + 1);
  }

  lemma SucceededGuarded(db: Db, p: nat, id: nat, b: Booking)
    requires p < |db.payments| && id in db.bookings && db.bookings[id] == b && PaymentSucceeded(db, p, id, b).Ok?
    ensures Guarded(db, PaymentSucceeded(db, p, id, b).value, id)
  {
    hide Conflict, PaidAmount, ChangeHours, Ensure, Net, Available;
    var received := LockDays(WithState(db, p, PaidIn), b.quote.room, b.quote.segments);
    LockedByLockDays(WithState(db, p, PaidIn), b.quote.room, b.quote.segments);
    var conflict := b.status == Cancelled || Conflict(db.bookings, db.now, b.quote.room, b.quote.segments, Some(id));
    var remaining := Outstanding(received, id, b);
    var late := DebitLate(received, id, b, conflict, remaining).value;
    if b.resource.Some? {
      var missing := b.quote.writeoff - Refundable(received, id, b);
      HoursKeepRooms(received, b.resource.value, -missing, Some(id));
      if Ensure(received, b.resource.value).Ok? {
        HoursKeepRooms(Ensure(received, b.resource.value).value, b.resource.value, -missing, Some(id));
      }
    }
    PutGuarded(db, late.db, id, PaidBooking(b, conflict, remaining, late), db.nextBooking);
  }

  lemma PaymentResultGuarded(db: Db, p: nat, succeeded: bool)
    requires PaymentResult(db, p, succeeded).Ok?
    ensures Guarded(db, PaymentResult(db, p, succeeded).value, db.payments[p].booking)
  {
    var id := db.payments[p].booking;
    var b := db.bookings[id];
    if succeeded {
      hide PaymentSucceeded;
      SucceededGuarded(db, p, id, b);
    } else {
      hide CancelInTransaction;
      var voided := if db.payments[p].state == PaidIn then db else WithState(db, p, Void);
      if b.status == Hold {
        CancelGuarded(voided, id, b);
      }
    }
  }

  lemma AdjustGuarded(db: Db, resource: nat, revision: int, debit: bool, amount: int, booking: Option<nat>)
    requires AdjustManually(db, resource, revision, debit, amount, booking).Ok?
    ensures Guarded(db, AdjustManually(db, resource, revision, debit, amount, booking).value, Or(booking, 0))
  {
    hide ChangeHours, Ensure, Net, AdjustAllowed;
    HoursKeepRooms(db, resource, 0, None);
    var ready := Ensure(db, resource).value;
    HoursKeepRooms(ready, resource, if debit then -amount else amount, booking);
    var moved := ChangeHours(ready, resource, if debit then -amount else amount, booking).value;
    if booking.Some? && booking.value in moved.bookings {
      var b := moved.bookings[booking.value];
      PutGuarded(db, moved, booking.value,
                 b.(hoursDebited := Refundable(moved, booking.value, b), revision := b.revision + 1), db.nextBooking);
    }
  }

  lemma UntouchedGuarded(before: Db, after: Db, id: nat)
    requires KeepsRooms(before, after)
    ensures Guarded(before, after, id)
  {
  }

  /** Rewriting a booking without changing what it occupies owes the rooms nothing. */
  lemma TouchGuarded(db: Db, id: nat, b: Booking)
    requires id in db.bookings && SameOccupation(db.bookings[id], b)
    ensures Guarded(db, PutBooking(db, id, b), id)
  {
    PutGuarded(db, db, id, b, db.nextBooking);
  }

  lemma PolicyTickGuarded(db: Db, id: nat, seen: Policy)
    requires PolicyTick(db, id, seen).Ok?
    ensures Guarded(db, PolicyTick(db, id, seen).value, id)
  {
    hide Conflict;
    var after := PolicyTick(db, id, seen).value;
    if after == db {
      UntouchedGuarded(db, db, id);
    } else {
      TouchGuarded(db, id, after.bookings[id]);
    }
  }

  lemma AttachGuarded(db: Db, id: nat, pid: nat, amount: int, reported: Option<int>)
    requires AttachProviderPayment(db, id, pid, amount, reported).Ok?
    ensures Guarded(db, AttachProviderPayment(db, id, pid, amount, reported).value, id)
  {
    hide KnownPayment, Conflict;
    var after := AttachProviderPayment(db, id, pid, amount, reported).value;
    PutGuarded(db, db.(payments := after.payments), id, after.bookings[id], db.nextBooking);
  }

  lemma FlagGuarded(db: Db, id: nat)
    ensures FlagUncertain(db, id).Ok? && Guarded(db, FlagUncertain(db, id).value, id)
  {
    hide Conflict;
    if id in db.bookings {
      TouchGuarded(db, id, FlagUncertain(db, id).value.bookings[id]);
    } else {
      UntouchedGuarded(db, db, id);
    }
  }

  /** Every command that makes a booking occupy time has found it free and written its room-days. */
  lemma BodyGuarded(db: Db, c: Command)
    requires db.nextBooking !in db.bookings && Body(db, c).Ok?
    ensures Guarded(db, Body(db, c).value, Target(db, c))
  {
    hide Guarded;
    match c
    case CreateBooking(listing, input, party, terms, ahead) =>
      hide Open, MakeQuote;
      var q := MakeQuote(listing, input, 0).value;
      OpenGuarded(db, q, InitialPayment(input.payBy, q.total, party.guest, db.now), party, terms);
    case ConfirmBooking(id, revision) => hide Confirm; ConfirmGuarded(db, id, revision);
    case MarkBookingPaid(id, revision) => hide MarkPaid; MarkPaidGuarded(db, id, revision);
    case ResolveBooking(id, revision) =>
      hide Refundable;
      var b := db.bookings[id];
      TouchGuarded(db, id, b.(attention := false, revision := b.revision + 1));
    case CommentBooking(id, revision) =>
      TouchGuarded(db, id, db.bookings[id].(revision := db.bookings[id].revision + 1));
    case CancelAsAdmin(id, revision) => hide CancelInTransaction; CancelGuarded(db, id, db.bookings[id]);
    case CancelAsCustomer(id, seen, resident) => hide CancelInTransaction; CancelGuarded(db, id, db.bookings[id]);
    case ChangeBooking(listing, id, kind, change, seen, terms, ahead) =>
      hide Change;
      ChangeGuarded(db, listing, id, kind, change, seen, terms, ahead);
    case Block(listing, input) => hide BlockRoom; BlockGuarded(db, listing, input);
    case AttachPayment(id, pid, amount, reported) =>
      hide AttachProviderPayment;
      AttachGuarded(db, id, pid, amount, reported);
    case ReceiveResult(payment, succeeded, reported) => hide PaymentResult; PaymentResultGuarded(db, payment, succeeded);
    case FlagPayment(id) => hide FlagUncertain; FlagGuarded(db, id);
    case ExpireHold(id) =>
      hide CancelInTransaction;
      if id in db.bookings && Expire(db, id) == CancelInTransaction(db, id, db.bookings[id]) {
        CancelGuarded(db, id, db.bookings[id]);
      } else {
        UntouchedGuarded(db, db, id);
      }
    case TickPolicy(id, policy) => hide PolicyTick; PolicyTickGuarded(db, id, policy);
    case Invoiced(id, invoice) =>
      var b := db.bookings[id];
      TouchGuarded(db, id, b.(invoice := Some(invoice), revision := b.revision + 1));
    case AdjustHoursBy(resource, revision, debit, amount, booking) =>
      hide AdjustManually;
      AdjustGuarded(db, resource, revision, debit, amount, booking);
    case EnsureHours(resource) =>
      hide Ensure;
      HoursKeepRooms(db, resource, 0, None);
      UntouchedGuarded(db, Ensure(db, resource).value, 0);
  }

  /** A command leaves every booking but its target as it is. */
  lemma OthersUntouched(before: Db, after: Db, target: nat, id: nat)
    requires Guarded(before, after, target) && id != target && id in before.bookings.Keys + after.bookings.Keys
    ensures id in before.bookings && id in after.bookings && after.bookings[id] == before.bookings[id]
  {
    hide Conflict, Locked, RevisionsGrow;
  }

  // ---------------------------------------------------------------- no double booking

  predicate Clash(a: Booking, b: Booking, now: int) {
    && a.quote.room == b.quote.room && Blocks(a, now) && Blocks(b, now)
    && AnyOverlap(a.quote.segments, b.quote.segments)
  }

  /** No two bookings that block one room overlap. */
  ghost predicate Disjoint(bookings: map<nat, Booking>, now: int) {
    forall i, j :: i in bookings && j in bookings && i != j ==> !Clash(bookings[i], bookings[j], now)
  }

  lemma OverlapSymmetric(a: seq<Segment>, b: seq<Segment>)
    requires AnyOverlap(a, b)
    ensures AnyOverlap(b, a)
  {
    var i, j :| 0 <= i < |a| && 0 <= j < |b| && Overlap(a[i], b[j]);
    assert Overlap(b[j], a[i]);
  }

  /** A booking that conflicts with nobody clashes with nobody. */
  lemma NoConflictNoClash(bookings: map<nat, Booking>, now: int, id: nat, b: Booking, j: nat)
    requires j in bookings && j != id
    requires !Conflict(bookings, now, b.quote.room, b.quote.segments, Some(id))
    ensures !Clash(b, bookings[j], now) && !Clash(bookings[j], b, now)
  {
    if Clash(b, bookings[j], now) {
      OverlapSymmetric(b.quote.segments, bookings[j].quote.segments);
    }
  }

  lemma GuardedKeepsDisjoint(before: Db, after: Db, id: nat)
    requires Guarded(before, after, id) && Disjoint(before.bookings, before.now)
    ensures Disjoint(after.bookings, before.now)
  {
    hide Conflict, AnyOverlap;
    forall i, j | i in after.bookings && j in after.bookings && i != j
      ensures !Clash(after.bookings[i], after.bookings[j], before.now)
    {
      if i != id && j != id {
        assert !Clash(before.bookings[i], before.bookings[j], before.now);
      } else {
        var other := if i == id then j else i;
        NewcomerClashes(before, after, id, other);
      }
    }
  }

  lemma NewcomerClashes(before: Db, after: Db, id: nat, j: nat)
    requires Guarded(before, after, id) && Disjoint(before.bookings, before.now)
    requires id in after.bookings && j in before.bookings && j != id
    ensures !Clash(after.bookings[id], after.bookings[j], before.now)
    ensures !Clash(after.bookings[j], after.bookings[id], before.now)
  {
    var b := after.bookings[id];
    hide Conflict, AnyOverlap, Locked, RevisionsGrow;
    if id in before.bookings && SameOccupation(before.bookings[id], b) {
      assert !Clash(before.bookings[id], before.bookings[j], before.now);
      assert !Clash(before.bookings[j], before.bookings[id], before.now);
    } else if BlockingStatus(b.status) {
      NoConflictNoClash(before.bookings, before.now, id, b, j);
    }
  }

  /** Time only ends occupation. */
  lemma TimeKeepsDisjoint(bookings: map<nat, Booking>, now: int, later: int)
    requires Disjoint(bookings, now) && now <= later
    ensures Disjoint(bookings, later)
  {
    forall i, j | i in bookings && j in bookings && i != j ensures !Clash(bookings[i], bookings[j], later) {
      assert !Clash(bookings[i], bookings[j], now);
    }
  }

  // ---------------------------------------------------------------- what no command touches

  /** The clock, the profiles and the ownership document stay, and no demand of a prepayment is taken back. */
  predicate SameEnvironment(a: Db, b: Db) {
    a.now == b.now && a.profiles == b.profiles && a.fence == b.fence && a.writable == b.writable && a.prepay <= b.prepay
  }

  lemma HoursKeepEnvironment(db: Db, resource: nat, delta: int, booking: Option<nat>)
    ensures Ensure(db, resource).Ok? ==> SameEnvironment(db, Ensure(db, resource).value)
    ensures ChangeHours(db, resource, delta, booking).Ok? ==>
              SameEnvironment(db, ChangeHours(db, resource, delta, booking).value)
  {
    hide EnsureAccount, Today, SpentSince, Available, Net, Revision, Conflict;
  }

  lemma CancelKeepsEnvironment(db: Db, id: nat, b: Booking)
    requires CancelInTransaction(db, id, b).Ok?
    ensures SameEnvironment(db, CancelInTransaction(db, id, b).value)
  {
    hide ChangeHours, Refundable, PaidAmount, Touched, Days;
    if b.resource.Some? {
      var locked := LockDays(db, b.quote.room, b.quote.segments);
      HoursKeepEnvironment(locked, b.resource.value, Refundable(locked, id, b), Some(id));
    }
  }

  lemma OpenKeepsEnvironment(db: Db, q: Quote, o: Opening, party: Party, terms: InvoiceTerms)
    requires Open(db, q, o, party, terms).Ok?
    ensures SameEnvironment(db, Open(db, q, o, party, terms).value)
  {
    hide ChangeHours, Ensure, Available, Conflict, Touched, Days, NewBooking;
    if party.resource.Some? {
      var locked := if o.status == GuestRequest then db else LockDays(db, q.room, q.segments);
      HoursKeepEnvironment(locked, party.resource.value, -q.writeoff, Some(db.nextBooking));
    }
  }

  lemma ApplyChangeKeepsEnvironment(db: Db, id: nat, b: Booking, q: Quote, payBy: Method, terms: InvoiceTerms)
    requires ApplyChange(db, id, b, q, payBy, terms).Ok?
    ensures SameEnvironment(db, ApplyChange(db, id, b, q, payBy, terms).value)
  {
    hide ChangeHours, Refundable, PaidAmount, Conflict, Touched, Days, MethodAllowed, ChangedBooking;
    if b.resource.Some? {
      var locked := LockDays(LockDays(db, b.quote.room, b.quote.segments), q.room, q.segments);
      var delta := q.writeoff - Refundable(locked, id, b);
      HoursKeepEnvironment(locked, b.resource.value, -delta, Some(id));
      HoursKeepEnvironment(locked, b.resource.value, Min(-delta, Refundable(locked, id, b)), Some(id));
    }
  }

  lemma SucceededKeepsEnvironment(db: Db, p: nat, id: nat, b: Booking)
    requires p < |db.payments| && PaymentSucceeded(db, p, id, b).Ok?
    ensures SameEnvironment(db, PaymentSucceeded(db, p, id, b).value)
  {
    hide ChangeHours, Ensure, Available, Refundable, PaidAmount, Conflict, Touched, Days, PaidBooking;
    var received := LockDays(WithState(db, p, PaidIn), b.quote.room, b.quote.segments);
    if b.resource.Some? {
      var missing := b.quote.writeoff - Refundable(received, id, b);
      HoursKeepEnvironment(received, b.resource.value, 0, None);
      if Ensure(received, b.resource.value).Ok? {
        HoursKeepEnvironment(Ensure(received, b.resource.value).value, b.resource.value, -missing, Some(id));
      }
    }
  }

  lemma AdjustKeepsEnvironment(db: Db, resource: nat, revision: int, debit: bool, amount: int, booking: Option<nat>)
    requires AdjustManually(db, resource, revision, debit, amount, booking).Ok?
    ensures SameEnvironment(db, AdjustManually(db, resource, revision, debit, amount, booking).value)
  {
    hide ChangeHours, Ensure, Refundable, AdjustAllowed;
    HoursKeepEnvironment(db, resource, 0, None);
    HoursKeepEnvironment(Ensure(db, resource).value, resource, if debit then -amount else amount, booking);
  }

  lemma CreateKeepsEnvironment(db: Db, listing: Listing, input: QuoteInput, party: Party, terms: InvoiceTerms, ahead: Ahead)
    requires Create(db, listing, input, party, terms, ahead).Ok?
    ensures SameEnvironment(db, Create(db, listing, input, party, terms, ahead).value)
  {
    hide Open, MakeQuote, AnyInPast, InitialPayment;
    var q := MakeQuote(listing, input, 0).value;
    OpenKeepsEnvironment(db, q, InitialPayment(input.payBy, q.total, party.guest, db.now), party, terms);
  }

  lemma ConfirmKeepsEnvironment(db: Db, id: nat, revision: int)
    requires Confirm(db, id, revision).Ok?
    ensures SameEnvironment(db, Confirm(db, id, revision).value)
  {
    hide Conflict, Refundable, Touched, Days;
  }

  lemma MarkPaidKeepsEnvironment(db: Db, id: nat, revision: int)
    requires MarkPaid(db, id, revision).Ok?
    ensures SameEnvironment(db, MarkPaid(db, id, revision).value)
  {
    hide Conflict, PaidAmount, Touched, Days, Settled;
  }

  lemma ResolveKeepsEnvironment(db: Db, id: nat, revision: int)
    requires ResolveAttention(db, id, revision).Ok?
    ensures SameEnvironment(db, ResolveAttention(db, id, revision).value)
  {
    hide Refundable;
  }

  lemma FoundCancelKeepsEnvironment(db: Db, id: nat, after: Db)
    requires id in db.bookings && CancelInTransaction(db, id, db.bookings[id]) == Ok(after)
    ensures SameEnvironment(db, after)
  {
    hide CancelInTransaction;
    CancelKeepsEnvironment(db, id, db.bookings[id]);
  }

  lemma ChangeKeepsEnvironment(db: Db, listing: Listing, id: nat, kind: Kind, input: ChangeInput,
                               revision: Option<int>, terms: InvoiceTerms, ahead: Ahead)
    requires Change(db, listing, id, kind, input, revision, terms, ahead).Ok?
    ensures SameEnvironment(db, Change(db, listing, id, kind, input, revision, terms, ahead).value)
  {
    hide ChangeQuote, ApplyChange, AnyInPast, AllOver;
    var b := db.bookings[id];
    var q := ChangeQuote(listing, b.quote, b.payBy, b.hoursDebited, kind, input).value;
    ApplyChangeKeepsEnvironment(db, id, b, q, Or(input.payBy, b.payBy), terms);
  }

  lemma BlockKeepsEnvironment(db: Db, listing: Listing, input: QuoteInput)
    requires BlockRoom(db, listing, input).Ok?
    ensures SameEnvironment(db, BlockRoom(db, listing, input).value)
  {
    hide MakeQuote, Conflict, Touched, Days;
  }

  lemma ResultKeepsEnvironment(db: Db, p: nat, succeeded: bool)
    requires PaymentResult(db, p, succeeded).Ok?
    ensures SameEnvironment(db, PaymentResult(db, p, succeeded).value)
  {
    hide PaymentSucceeded, CancelInTransaction;
    var id := db.payments[p].booking;
    if succeeded {
      SucceededKeepsEnvironment(db, p, id, db.bookings[id]);
    } else if db.bookings[id].status == Hold {
      var voided := if db.payments[p].state == PaidIn then db else WithState(db, p, Void);
      CancelKeepsEnvironment(voided, id, db.bookings[id]);
    }
  }

  lemma ResultNamesTarget(db: Db, p: nat, succeeded: bool)
    requires PaymentResult(db, p, succeeded).Ok?
    ensures p < |db.payments|
  {
    hide PaymentSucceeded, PaymentCancelled;
  }

  lemma ExpireKeepsEnvironment(db: Db, id: nat)
    requires Expire(db, id).Ok?
    ensures SameEnvironment(db, Expire(db, id).value)
  {
    hide CancelInTransaction;
    if Expire(db, id) != Ok(db) {
      CancelKeepsEnvironment(db, id, db.bookings[id]);
    }
  }

  lemma PolicyTickKeepsEnvironment(db: Db, id: nat, seen: Policy)
    requires PolicyTick(db, id, seen).Ok?
    ensures SameEnvironment(db, PolicyTick(db, id, seen).value)
  {
  }

  /** No command body moves the clock, changes a profile, or writes the ownership document. */
  lemma BodyKeepsEnvironment(db: Db, c: Command)
    ensures Body(db, c).Ok? ==> SameEnvironment(db, Body(db, c).value)
  {
    hide Create, Confirm, MarkPaid, ResolveAttention, CancelInTransaction, AllOver, Change, BlockRoom,
      PaymentResult, Expire, PolicyTick, AdjustManually, Ensure, KnownPayment;
    if Body(db, c).Err? {
      return;
    }
    match c
    case CreateBooking(listing, input, party, terms, ahead) =>
      CreateKeepsEnvironment(db, listing, input, party, terms, ahead);
    case ConfirmBooking(id, revision) => ConfirmKeepsEnvironment(db, id, revision);
    case MarkBookingPaid(id, revision) => MarkPaidKeepsEnvironment(db, id, revision);
    case ResolveBooking(id, revision) => ResolveKeepsEnvironment(db, id, revision);
    case CommentBooking(id, revision) =>
    case CancelAsAdmin(id, revision) => FoundCancelKeepsEnvironment(db, id, Body(db, c).value);
    case CancelAsCustomer(id, seen, resident) => FoundCancelKeepsEnvironment(db, id, Body(db, c).value);
    case ChangeBooking(listing, id, kind, change, seen, terms, ahead) =>
      ChangeKeepsEnvironment(db, listing, id, kind, change, seen, terms, ahead);
    case Block(listing, input) => BlockKeepsEnvironment(db, listing, input);
    case AttachPayment(id, pid, amount, reported) =>
    case FlagPayment(id) =>
    case ReceiveResult(p, succeeded, reported) => ResultKeepsEnvironment(db, p, succeeded);
    case ExpireHold(id) => ExpireKeepsEnvironment(db, id);
    case TickPolicy(id, policy) => PolicyTickKeepsEnvironment(db, id, policy);
    case Invoiced(id, invoice) =>
    case AdjustHoursBy(resource, revision, debit, amount, booking) =>
      AdjustKeepsEnvironment(db, resource, revision, debit, amount, booking);
    case EnsureHours(resource) => HoursKeepEnvironment(db, resource, 0, None);
  }
}
