/**
 Whose time is whose, in plain terms: which bookings keep a room's minutes for themselves, in every run, and
 that an operation which wants such a minute is told so, and no other operation is.
 */
module Slots {
  import opened Calendar
  import opened Results
  import opened Segments
  import opened Catalog
  import opened Records
  import opened Hours
  import opened Bookings
  import opened Payments
  import opened Machine
  import opened Invariants
  import opened Theorems
  import Availability
  import Worker

  /** The bookings that keep their time: a hold until it expires, and whatever is to be paid, confirmed, paid or shut. */
  predicate Live(b: Booking, now: int) {
    match b.status
    case Hold => b.expiresAt.Some? && now < b.expiresAt.value
    case AwaitingPayment => true
    case AwaitingConfirmation => true
    case Confirmed => true
    case PaidUp => true
    case Blocked => true
    case Draft => false
    case GuestRequest => false
    case Cancelled => false
    case AwaitingResolution => false
  }

  predicate ShareMinute(a: seq<Segment>, b: seq<Segment>) {
    Covered(a) * Covered(b) != {}
  }

  /** Another live booking of the room has one of these minutes. */
  predicate Taken(db: Db, room: int, segments: seq<Segment>, except: Option<nat>) {
    exists id | id in db.bookings ::
      && except != Some(id) && db.bookings[id].quote.room == room
      && Live(db.bookings[id], db.now) && ShareMinute(db.bookings[id].quote.segments, segments)
  }

  predicate Forward(segments: seq<Segment>) {
    forall k :: 0 <= k < |segments| ==> segments[k].start < segments[k].end
  }

  lemma LiveBlocks(db: Db, id: nat)
    requires Inv(db) && id in db.bookings
    ensures Blocks(db.bookings[id], db.now) <==> Live(db.bookings[id], db.now)
    ensures Forward(db.bookings[id].quote.segments)
  {
    hide Inv, PricingOk, PairwiseDisjoint, Duration, Coverage, HoursExact;
    Stored(db, id);
  }

  /** The query behind every availability check finds exactly what is taken. */
  lemma ConflictIsTaken(db: Db, room: int, segments: seq<Segment>, except: Option<nat>)
    requires Inv(db) && Forward(segments)
    ensures Conflict(db.bookings, db.now, room, segments, except) <==> Taken(db, room, segments, except)
  {
    hide Inv, Blocks, Live, AnyOverlap, Covered;
    forall id | id in db.bookings
      ensures Blocks(db.bookings[id], db.now) <==> Live(db.bookings[id], db.now)
      ensures AnyOverlap(db.bookings[id].quote.segments, segments)
         <==> ShareMinute(db.bookings[id].quote.segments, segments)
    {
      LiveBlocks(db, id);
      OverlapSharesMinute(db.bookings[id].quote.segments, segments);
    }
  }

  // ---------------------------------------------------------------- every run

  /** In every run two live bookings of one room have no minute in common. */
  lemma LiveApart(now: nat, events: seq<Event>, i: nat, j: nat)
    requires var db := Reached(now, events);
      && i in db.bookings && j in db.bookings && i != j
      && db.bookings[i].quote.room == db.bookings[j].quote.room
      && Live(db.bookings[i], db.now) && Live(db.bookings[j], db.now)
    ensures !ShareMinute(Reached(now, events).bookings[i].quote.segments, Reached(now, events).bookings[j].quote.segments)
  {
    hide After, Blocks, Live, Covered;
    RunInv(now, events);
    LiveBlocks(Reached(now, events), i);
    LiveBlocks(Reached(now, events), j);
    NeverDoubleBooked(now, events, i, j);
  }

  /** In every run a block shuts its room: while it stands, no other live booking has a minute of it. */
  lemma BlockedRoomShut(now: nat, events: seq<Event>, block: nat, other: nat)
    requires var db := Reached(now, events);
      && block in db.bookings && other in db.bookings && block != other
      && db.bookings[block].status == Blocked && db.bookings[block].quote.room == db.bookings[other].quote.room
      && ShareMinute(db.bookings[block].quote.segments, db.bookings[other].quote.segments)
    ensures var b := Reached(now, events).bookings[other];
      && b.status !in {AwaitingPayment, AwaitingConfirmation, Confirmed, PaidUp, Blocked}
      && (b.status == Hold ==> b.expiresAt.Some? && b.expiresAt.value <= Reached(now, events).now)
  {
    hide After, Covered;
    var db := Reached(now, events);
    RunInv(now, events);
    assert Shape(db.bookings[other]) by {
      hide Inv;
      Stored(db, other);
    }
    if Live(db.bookings[other], db.now) {
      LiveApart(now, events, block, other);
    }
  }

  /** In every run the worker's query finds exactly the holds that keep their time no longer. */
  lemma LapsedIff(now: nat, events: seq<Event>, id: nat)
    requires id in Reached(now, events).bookings
    ensures var db := Reached(now, events);
      id in Worker.LapsedHolds(db) <==> db.bookings[id].status == Hold && !Live(db.bookings[id], db.now)
  {
    hide After;
    RunInv(now, events);
    assert Shape(Reached(now, events).bookings[id]) by {
      hide Inv;
      Stored(Reached(now, events), id);
    }
  }

  // ---------------------------------------------------------------- the operations

  /** Moving hours fails for other reasons than time. */
  lemma HoursNoSlot(db: Db, resource: nat, delta: int, booking: Option<nat>)
    ensures Ensure(db, resource) != Err(SlotConflict) && ChangeHours(db, resource, delta, booking) != Err(SlotConflict)
  {
    hide EnsureAccount, Today, SpentSince, Available;
  }

  /** A new booking is refused for its time if and only if a live booking has one of its minutes; a guest's request never is. */
  lemma OpenTakenIff(db: Db, q: Quote, o: Opening, party: Party, terms: InvoiceTerms)
    requires Inv(db) && Forward(q.segments) && (q.writeoff == 0 || party.resource.Some?)
    ensures Open(db, q, o, party, terms) == Err(SlotConflict)
       <==> o.status != GuestRequest && Taken(db, q.room, q.segments, None)
  {
    hide Inv, Conflict, Taken, Ensure, ChangeHours, Available, Touched, Days, NewBooking, Forward;
    ConflictIsTaken(db, q.room, q.segments, None);
    if party.resource.Some? {
      HoursNoSlot(if o.status == GuestRequest then db else LockDays(db, q.room, q.segments),
                  party.resource.value, -q.writeoff, Some(db.nextBooking));
    }
  }

  /** A change is refused for its time if and only if another live booking has one of the new minutes. */
  lemma ChangeTakenIff(db: Db, id: nat, b: Booking, q: Quote, payBy: Method, terms: InvoiceTerms)
    requires Inv(db) && Forward(q.segments)
    ensures ApplyChange(db, id, b, q, payBy, terms) == Err(SlotConflict) <==> Taken(db, q.room, q.segments, Some(id))
  {
    hide Inv, Conflict, Taken, ChangeHours, Touched, Days, ChangedBooking, Forward, Refundable, PolicyFor, PaidAmount;
    ConflictIsTaken(db, q.room, q.segments, Some(id));
    var locked := LockDays(LockDays(db, b.quote.room, b.quote.segments), q.room, q.segments);
    var delta := q.writeoff - Refundable(locked, id, b);
    if b.resource.Some? {
      HoursNoSlot(locked, b.resource.value, -delta, Some(id));
      HoursNoSlot(locked, b.resource.value, Min(-delta, Refundable(locked, id, b)), Some(id));
    }
  }

  lemma QuoteForward(listing: Listing, input: QuoteInput, previous: int)
    requires MakeQuote(listing, input, previous).Ok?
    ensures Forward(MakeQuote(listing, input, previous).value.segments)
  {
    hide MakeQuote, PricingOk, PairwiseDisjoint, Duration;
    QuoteSound(listing, input, previous);
  }

  /** A block that can be priced is refused if and only if a live booking has one of its minutes; else it is stored as a block. */
  lemma BlockTakenIff(db: Db, listing: Listing, input: QuoteInput)
    requires Inv(db) && PrepareBlock(listing, input).Ok?
    ensures var q := PrepareBlock(listing, input).value;
      && (BlockRoom(db, listing, input) == Err(SlotConflict) <==> Taken(db, q.room, q.segments, None))
      && (!Taken(db, q.room, q.segments, None) ==>
            && BlockRoom(db, listing, input).Ok?
            && var after := BlockRoom(db, listing, input).value;
               && after == db.(bookings := after.bookings, roomDays := after.roomDays, nextBooking := db.nextBooking + 1)
               && db.nextBooking in after.bookings && after.bookings == db.bookings[db.nextBooking := after.bookings[db.nextBooking]]
               && var b := after.bookings[db.nextBooking];
                  && b.quote == q && b.status == Blocked && Live(b, db.now) && b.resource == None && b.profile == None
                  && b.payment == Unpaid && b.payBy == NoMethod && b.expiresAt == None && b.hoursDebited == 0
                  && !b.attention && b.policy.kind == NoPolicy && b.invoice == None && b.revision == 1)
  {
    hide Inv, MakeQuote, Conflict, Taken, Touched, Days, Forward;
    QuoteForward(listing, input.(payBy := Cash, services := [], writeoff := 0), 0);
    var q := PrepareBlock(listing, input).value;
    ConflictIsTaken(db, q.room, q.segments, None);
  }

  /** A standing block refuses a new booking, a change of another booking and another block that want a minute of it. */
  lemma BlockRefuses(db: Db, block: nat, q: Quote, o: Opening, party: Party, terms: InvoiceTerms, id: nat, b: Booking,
                     payBy: Method, listing: Listing, input: QuoteInput)
    requires Inv(db) && block in db.bookings && db.bookings[block].status == Blocked && id != block
    requires Forward(q.segments) && q.room == db.bookings[block].quote.room
    requires ShareMinute(db.bookings[block].quote.segments, q.segments)
    ensures o.status != GuestRequest && (q.writeoff == 0 || party.resource.Some?) ==>
              Open(db, q, o, party, terms) == Err(SlotConflict)
    ensures ApplyChange(db, id, b, q, payBy, terms) == Err(SlotConflict)
    ensures PrepareBlock(listing, input) == Ok(q) ==> BlockRoom(db, listing, input) == Err(SlotConflict)
  {
    hide Inv, Open, ApplyChange, BlockRoom, PrepareBlock, Covered, Forward;
    assert Taken(db, q.room, q.segments, None) && Taken(db, q.room, q.segments, Some(id));
    hide Taken;
    if o.status != GuestRequest && (q.writeoff == 0 || party.resource.Some?) {
      OpenTakenIff(db, q, o, party, terms);
    }
    ChangeTakenIff(db, id, b, q, payBy, terms);
    if PrepareBlock(listing, input) == Ok(q) {
      BlockTakenIff(db, listing, input);
    }
  }

  /** A confirmation is refused for its time only when another live booking has one of its minutes, and never succeeds then. */
  lemma ConfirmTaken(db: Db, id: nat, revision: int)
    requires Inv(db) && id in db.bookings
    ensures var b := db.bookings[id];
      && (Confirm(db, id, revision) == Err(SlotConflict) ==> Taken(db, b.quote.room, b.quote.segments, Some(id)))
      && (Confirm(db, id, revision).Ok? ==> !Taken(db, b.quote.room, b.quote.segments, Some(id)))
  {
    hide Inv, Conflict, Taken, Refundable, Touched, Days, Forward;
    LiveBlocks(db, id);
    ConflictIsTaken(db, db.bookings[id].quote.room, db.bookings[id].quote.segments, Some(id));
  }

  /** In every run a stretch of slots of the grid is shown as free if and only if no live booking has a minute of it. */
  lemma GridShowsTaken(now: nat, events: seq<Event>, rows: seq<Booking>, cfg: RoomConfig, room: int, date: Date,
                       slots: seq<Availability.Slot>, first: nat, last: nat)
    requires var db := Reached(now, events);
      && Availability.RowsOf(rows, db.bookings, room, date)
      && Availability.IsGrid(slots, cfg, Availability.DayRanges(rows, date, db.now))
    requires first <= last < |slots|
    ensures (forall i :: first <= i <= last ==> slots[i].state == Availability.Free)
       <==> !Taken(Reached(now, events), room, [Segment(date, slots[first].start, slots[last].end)], None)
  {
    hide After, Conflict, Taken, Inv, Availability.RowsOf, Availability.DayRanges, Availability.Shows;
    RunInv(now, events);
    Availability.GridAgrees(now, events, rows, cfg, room, date, slots, first, last);
    Availability.StretchSlots(slots, cfg.workStart, cfg.workEnd, cfg.step, first, last);
    ConflictIsTaken(Reached(now, events), room, [Segment(date, slots[first].start, slots[last].end)], None);
  }

  /** What a slot shows of the booking that is in its way: shut off, on hold until when, paid for, or reserved. */
  ghost predicate ShownAs(s: Availability.Slot, b: Booking) {
    && (s.state == Availability.ShutOff <==> b.status == Blocked)
    && (s.state == Availability.OnHold <==> b.status == Hold)
    && (s.state == Availability.PaidFor <==> b.status !in {Blocked, Hold} && b.payment == Paid)
    && (s.state == Availability.Reserved <==> b.status !in {Blocked, Hold} && b.payment != Paid)
    && s.holdUntil == b.expiresAt
  }

  ghost predicate RangeOf(r: Availability.Range, b: Booking, date: Date) {
    && ShownAs(Availability.Slot(r.start, r.end, r.state, r.holdUntil), b)
    && exists k :: 0 <= k < |b.quote.segments| && b.quote.segments[k] == Segment(date, r.start, r.end)
  }

  lemma {:induction false} RangesFrom(b: Booking, segments: seq<Segment>, date: Date)
    requires forall k :: 0 <= k < |segments| ==> segments[k] in b.quote.segments
    ensures forall r :: r in Availability.RangesOf(b, segments, date) ==> RangeOf(r, b, date)
  {
    if segments != [] {
      var last := segments[|segments| - 1];
      RangesFrom(b, segments[..|segments| - 1], date);
      assert last in b.quote.segments;
      assert last.date == date ==> last == Segment(date, last.start, last.end);
    }
  }

  lemma {:induction false} DayRangesFrom(rows: seq<Booking>, date: Date, now: int)
    ensures forall r :: r in Availability.DayRanges(rows, date, now) ==>
              exists i :: 0 <= i < |rows| && Blocks(rows[i], now) && RangeOf(r, rows[i], date)
  {
    if rows != [] {
      var front, last := rows[..|rows| - 1], rows[|rows| - 1];
      DayRangesFrom(front, date, now);
      RangesFrom(last, last.quote.segments, date);
      hide Blocks, RangeOf;
      forall r | r in Availability.DayRanges(rows, date, now)
        ensures exists i :: 0 <= i < |rows| && Blocks(rows[i], now) && RangeOf(r, rows[i], date)
      {
        if r in Availability.DayRanges(front, date, now) {
          var i :| 0 <= i < |front| && Blocks(front[i], now) && RangeOf(r, front[i], date);
          assert rows[i] == front[i];
        } else {
          assert Blocks(rows[|rows| - 1], now) && RangeOf(r, rows[|rows| - 1], date);
        }
      }
    }
  }

  /** A slot that is not free shows a live booking of the rows that has some of its minutes. */
  lemma SlotShows(rows: seq<Booking>, date: Date, now: int, s: Availability.Slot)
    requires Availability.Shows(s, Availability.DayRanges(rows, date, now)) && s.state != Availability.Free
    requires forall i :: 0 <= i < |rows| ==> (rows[i].expiresAt.Some? <==> rows[i].status == Hold)
    ensures exists i, k :: 0 <= i < |rows| && 0 <= k < |rows[i].quote.segments|
              && Live(rows[i], now) && ShownAs(s, rows[i]) && rows[i].quote.segments[k].date == date
              && rows[i].quote.segments[k].start < s.end && s.start < rows[i].quote.segments[k].end
  {
    var ranges := Availability.DayRanges(rows, date, now);
    Availability.FirstHitIs(ranges, s.start, s.end);
    DayRangesFrom(rows, date, now);
    hide Availability.DayRanges, Availability.FirstHit, Availability.AnyHit, ShownAs;
    var r := Availability.FirstHit(ranges, s.start, s.end).value;
    assert r in ranges;
    var i :| 0 <= i < |rows| && Blocks(rows[i], now) && RangeOf(r, rows[i], date);
    var k :| 0 <= k < |rows[i].quote.segments| && rows[i].quote.segments[k] == Segment(date, r.start, r.end);
    assert Live(rows[i], now);
    assert ShownAs(s, rows[i]) by {
      SameShown(Availability.Slot(r.start, r.end, r.state, r.holdUntil), s, rows[i]);
    }
  }

  lemma SameShown(a: Availability.Slot, s: Availability.Slot, b: Booking)
    requires ShownAs(a, b) && a.state == s.state && a.holdUntil == s.holdUntil
    ensures ShownAs(s, b)
  {
  }

  // ---------------------------------------------------------------- the days that are marked

  predicate OnDay(segments: seq<Segment>, day: Date) {
    exists i :: 0 <= i < |segments| && segments[i].date == day
  }

  /** The room-days of the room and the days of the segments have been counted up once, and no others. */
  ghost predicate Marked(before: RoomDays, after: RoomDays, room: int, segments: seq<Segment>) {
    forall k, day :: Revision(after, k, day)
      == Revision(before, k, day) + if k == room && OnDay(segments, day) then 1 else 0
  }

  ghost predicate Unmarked(before: RoomDays, after: RoomDays) {
    forall k, day :: Revision(after, k, day) == Revision(before, k, day)
  }

  lemma LockMarks(db: Db, room: int, segments: seq<Segment>)
    ensures Marked(db.roomDays, LockDays(db, room, segments).roomDays, room, segments)
    ensures LockDays(db, room, segments) == db.(roomDays := LockDays(db, room, segments).roomDays)
  {
    TouchMarks(db.roomDays, room, segments);
  }

  lemma TouchMarks(days: RoomDays, room: int, segments: seq<Segment>)
    ensures Marked(days, Touched(days, room, Days(segments)), room, segments)
  {
    forall day ensures day in Days(segments) <==> OnDay(segments, day) {
      DayOf(segments, day);
    }
    hide Days, OnDay;
    var after := Touched(days, room, Days(segments));
    forall k, day ensures Revision(after, k, day) == Revision(days, k, day) + if k == room && OnDay(segments, day) then 1 else 0 {
    }
  }

  lemma DayOf(segments: seq<Segment>, day: Date)
    ensures day in Days(segments) <==> OnDay(segments, day)
  {
  }

  /** A new booking marks the days of its time; a guest's request marks none. */
  lemma OpenMarks(db: Db, q: Quote, o: Opening, party: Party, terms: InvoiceTerms)
    requires Open(db, q, o, party, terms).Ok?
    ensures var after := Open(db, q, o, party, terms).value.roomDays;
      if o.status == GuestRequest then Unmarked(db.roomDays, after) else Marked(db.roomDays, after, q.room, q.segments)
  {
    hide ChangeHours, Ensure, Conflict, LockDays, NewBooking, Available, Marked, Revision;
    LockMarks(db, q.room, q.segments);
    if party.resource.Some? {
      HoursKeepRooms(if o.status == GuestRequest then db else LockDays(db, q.room, q.segments),
                     party.resource.value, -q.writeoff, Some(db.nextBooking));
    }
  }

  /** Whoever confirms, takes a payment, cancels or shuts a room marks the days of the booking's time. */
  lemma ActionMarks(db: Db, id: nat, c: Command)
    requires id in db.bookings && Body(db, c).Ok? && Body(db, c).value != db
    requires c in {ConfirmBooking(id, db.bookings[id].revision), MarkBookingPaid(id, db.bookings[id].revision),
                   CancelAsAdmin(id, db.bookings[id].revision), ExpireHold(id)}
    ensures Marked(db.roomDays, Body(db, c).value.roomDays, db.bookings[id].quote.room, db.bookings[id].quote.segments)
  {
    hide Conflict, LockDays, Marked, Refundable, PaidAmount, CancelInTransaction, Confirm, MarkPaid;
    var b := db.bookings[id];
    match c
    case ConfirmBooking(_, revision) => ConfirmMarks(db, id, revision);
    case MarkBookingPaid(_, revision) => PaidMarks(db, id, revision);
    case _ =>
      if b.status == Cancelled {
        CancelledTwice(db, id);
      }
      CancelMarks(db, id, b);
  }

  lemma ConfirmMarks(db: Db, id: nat, revision: int)
    requires Confirm(db, id, revision).Ok?
    ensures Marked(db.roomDays, Confirm(db, id, revision).value.roomDays, db.bookings[id].quote.room,
                   db.bookings[id].quote.segments)
  {
    hide Conflict, LockDays, Marked, Refundable;
    LockMarks(db, db.bookings[id].quote.room, db.bookings[id].quote.segments);
  }

  lemma PaidMarks(db: Db, id: nat, revision: int)
    requires MarkPaid(db, id, revision).Ok? && MarkPaid(db, id, revision).value != db
    ensures Marked(db.roomDays, MarkPaid(db, id, revision).value.roomDays, db.bookings[id].quote.room,
                   db.bookings[id].quote.segments)
  {
    hide Conflict, LockDays, Marked, PaidAmount;
    var b := db.bookings[id];
    var due := Max(0, b.quote.total - PaidAmount(db.payments, id));
    LockMarks(db.(payments := db.payments + [Payment(id, None, due, PaidIn)]), b.quote.room, b.quote.segments);
  }

  lemma CancelMarks(db: Db, id: nat, b: Booking)
    requires CancelInTransaction(db, id, b).Ok? && b.status != Cancelled
    ensures Marked(db.roomDays, CancelInTransaction(db, id, b).value.roomDays, b.quote.room, b.quote.segments)
  {
    hide LockDays, Marked, Refundable, PaidAmount, ChangeHours;
    LockMarks(db, b.quote.room, b.quote.segments);
    if b.resource.Some? {
      var locked := LockDays(db, b.quote.room, b.quote.segments);
      HoursKeepRooms(locked, b.resource.value, Refundable(locked, id, b), Some(id));
    }
  }

  /** A change marks the days of the former time, and then those of the new. */
  lemma ChangeMarks(db: Db, id: nat, b: Booking, q: Quote, payBy: Method, terms: InvoiceTerms)
    requires ApplyChange(db, id, b, q, payBy, terms).Ok?
    ensures exists between: RoomDays ::
              && Marked(db.roomDays, between, b.quote.room, b.quote.segments)
              && Marked(between, ApplyChange(db, id, b, q, payBy, terms).value.roomDays, q.room, q.segments)
  {
    hide Conflict, LockDays, Marked, Refundable, PaidAmount, ChangeHours, MethodAllowed, ChangedBooking, PolicyFor;
    var first := LockDays(db, b.quote.room, b.quote.segments);
    LockMarks(db, b.quote.room, b.quote.segments);
    LockMarks(first, q.room, q.segments);
    var locked := LockDays(first, q.room, q.segments);
    var delta := q.writeoff - Refundable(locked, id, b);
    if b.resource.Some? {
      HoursKeepRooms(locked, b.resource.value, -delta, Some(id));
      HoursKeepRooms(locked, b.resource.value, Min(-delta, Refundable(locked, id, b)), Some(id));
    }
    assert Marked(db.roomDays, first.roomDays, b.quote.room, b.quote.segments);
  }

  /** A payment that has come in marks the days of its booking, whatever becomes of it. */
  lemma MoneyMarks(db: Db, p: nat, id: nat, b: Booking)
    requires p < |db.payments| && PaymentSucceeded(db, p, id, b).Ok?
    ensures Marked(db.roomDays, PaymentSucceeded(db, p, id, b).value.roomDays, b.quote.room, b.quote.segments)
  {
    hide Conflict, LockDays, Marked, Refundable, Outstanding, ChangeHours, Ensure, Available, PaidBooking;
    var paid := WithState(db, p, PaidIn);
    LockMarks(paid, b.quote.room, b.quote.segments);
    var received := LockDays(paid, b.quote.room, b.quote.segments);
    if b.resource.Some? {
      HoursKeepRooms(received, b.resource.value, 0, None);
      if Ensure(received, b.resource.value).Ok? {
        HoursKeepRooms(Ensure(received, b.resource.value).value, b.resource.value,
                       -(b.quote.writeoff - Refundable(received, id, b)), Some(id));
      }
    }
  }

  lemma BlockMarks(db: Db, listing: Listing, input: QuoteInput)
    requires BlockRoom(db, listing, input).Ok? && PrepareBlock(listing, input).Ok?
    ensures var q := PrepareBlock(listing, input).value;
      Marked(db.roomDays, BlockRoom(db, listing, input).value.roomDays, q.room, q.segments)
  {
    hide Conflict, LockDays, Marked, PrepareBlock;
    var q := PrepareBlock(listing, input).value;
    LockMarks(db, q.room, q.segments);
  }
}
