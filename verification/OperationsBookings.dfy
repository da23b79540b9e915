/** The booking operations as they update the store in place, each proved to do what its function says. */
module OperationsBookings {
  import opened Calendar
  import opened Results
  import opened Segments
  import opened Catalog
  import opened Records
  import opened Hours
  import opened Bookings
  import opened OperationsStore
  import Machine
  import Effects

  lemma TouchDone(days: RoomDays, room: int, done: set<Date>, day: Date)
    requires day !in done
    ensures var touched := Touched(days, room, done);
      Touched(days, room, done + {day}) == touched[(room, day) := Revision(touched, room, day) + 1]
  {
    var touched := Touched(days, room, done);
    var left, right := Touched(days, room, done + {day}), touched[(room, day) := Revision(touched, room, day) + 1];
    assert Revision(touched, room, day) == Revision(days, room, day);
    assert left.Keys == right.Keys;
  }

  lemma TouchNone(days: RoomDays, room: int)
    ensures Touched(days, room, {}) == days
  {
  }

  class BookingsService {
    const store: Store
    const hours: HoursService

    predicate Valid() {
      hours.store == store
    }

    constructor (hours: HoursService)
      ensures Valid() && this.hours == hours
    {
      this.hours, this.store := hours, hours.store;
    }

    /** Counts up the document of each distinct day; the order of the days does not show. */
    method LockDays(room: int, segments: seq<Segment>)
      modifies store`roomDays
      ensures store.State() == Bookings.LockDays(old(store.State()), room, segments)
    {
      hide Revision, Touched;
      var left, done := Days(segments), {};
      TouchNone(store.roomDays, room);
      while left != {}
        invariant left !! done && left + done == Days(segments)
        invariant store.roomDays == Touched(old(store.roomDays), room, done)
        decreases |left|
      {
        var day :| day in left;
        TouchDone(old(store.roomDays), room, done, day);
        store.roomDays := store.roomDays[(room, day) := Revision(store.roomDays, room, day) + 1];
        left, done := left - {day}, done + {day};
      }
      assert done == Days(segments);
    }

    method AssertAvailable(room: int, segments: seq<Segment>, except: Option<nat>) returns (r: Result<()>)
      modifies store`roomDays
      ensures Did(Bookings.AssertAvailable(old(store.State()), room, segments, except), r, store.State())
    {
      hide Conflict, Touched;
      LockDays(room, segments);
      if Conflict(store.bookings, store.now, room, segments, except) {
        return Err(SlotConflict);
      }
      return Ok(());
    }

    /** The transaction of `create`: the slot is checked and marked before hours are debited or looked at. */
    method Open(q: Quote, o: Opening, party: Party, terms: InvoiceTerms) returns (r: Result<()>)
      requires Valid()
      modifies store
      ensures Did(Bookings.Open(old(store.State()), q, o, party, terms), r, store.State())
    {
      hide Bookings.AssertAvailable, ChangeHours, Ensure, Available, Today, NewBooking;
      if q.writeoff != 0 && party.resource.None? {
        return Err(InsufficientBalance);
      }
      var id := store.nextBooking;
      if o.status != GuestRequest {
        r := AssertAvailable(q.room, q.segments, None);
        if r.Err? {
          return;
        }
      }
      var debited := 0;
      ghost var locked := store.State();
      if party.resource.Some? {
        Machine.HoursKeepEnvironment(locked, party.resource.value, -q.writeoff, Some(id));
      }
      if q.writeoff != 0 && o.status != Hold {
        r := hours.Change(party.resource.value, -q.writeoff, Some(id));
        if r.Err? {
          return;
        }
        debited := q.writeoff;
      } else if q.writeoff != 0 {
        var account := hours.Ensure(party.resource.value);
        if account.Err? {
          return Err(account.error);
        }
        if Available(account.value, Today(store.now)) < q.writeoff {
          return Err(InsufficientBalance);
        }
      }
      store.PutBooking(id, NewBooking(q, o, party, debited, store.now, terms));
      store.nextBooking := id + 1;
      return Ok(());
    }

    /** What a request reads of the store before its transaction. */
    method ReadAhead(shown: Option<PriceMark>) returns (ahead: Ahead)
      ensures ReadAt(ahead, store.State()) && ahead.shown == shown
    {
      return Ahead(store.now, store.prepay, shown);
    }

    /** Checks and prices a new booking by what was read `ahead`; its transaction may come later. */
    method Create(listing: Listing, input: QuoteInput, party: Party, terms: InvoiceTerms, ahead: Ahead)
      returns (r: Result<()>)
      requires Valid()
      modifies store
      ensures Did(Bookings.Create(old(store.State()), listing, input, party, terms, ahead), r, store.State())
    {
      hide Bookings.Open, MakeQuote, AnyInPast, InitialPayment;
      if PayLater(input.payBy) && party.profile.Some? && party.profile.value in ahead.prepay {
        return Err(PrepayRequired);
      }
      if input.payBy == NoMethod {
        return Err(ValidationError);
      }
      var quote := MakeQuote(listing, input, 0);
      if quote.Err? {
        return Err(quote.error);
      }
      if AnyInPast(quote.value.segments, ahead.now) {
        return Err(SlotInPast);
      }
      if ahead.shown.Some? && ahead.shown.value != MarkOf(listing, quote.value) {
        return Err(PriceChanged);
      }
      var o := InitialPayment(input.payBy, quote.value.total, party.guest, store.now);
      r := Open(quote.value, o, party, terms);
    }

    /** Reads a booking and checks that the caller has seen its revision. */
    method Find(id: nat, revision: Option<int>) returns (r: Result<Booking>)
      ensures r == if id !in store.bookings then Err(NotFound)
                   else if revision.Some? && SameRevision(store.bookings[id], revision.value).Err?
                   then Err(RevisionConflict) else Ok(store.bookings[id])
    {
      if id !in store.bookings {
        return Err(NotFound);
      }
      var b := store.bookings[id];
      if revision.Some? && !(revision.value >= 1 && revision.value == b.revision) {
        return Err(RevisionConflict);
      }
      return Ok(b);
    }

    method Confirm(id: nat, revision: int) returns (r: Result<()>)
      requires Valid()
      modifies store
      ensures Did(Bookings.Confirm(old(store.State()), id, revision), r, store.State())
    {
      hide Bookings.AssertAvailable, Refundable;
      var found := Find(id, Some(revision));
      if found.Err? {
        return Err(found.error);
      }
      var row := found.value;
      if row.status == Cancelled {
        return Err(InvalidState);
      }
      if row.payBy != Postpay && row.payment != Paid {
        return Err(PaymentRequired);
      }
      var left := hours.RefundableHours(id, row);
      if row.quote.writeoff > left {
        return Err(HoursRequired);
      }
      if row.status == Blocked {
        return Err(InvalidState);
      }
      r := AssertAvailable(row.quote.room, row.quote.segments, Some(id));
      if r.Err? {
        return;
      }
      store.PutBooking(id, row.(status := Confirmed, expiresAt := None, attention := false, revision := row.revision + 1));
    }

    method MarkPaid(id: nat, revision: int) returns (r: Result<()>)
      requires Valid()
      modifies store
      ensures Did(Bookings.MarkPaid(old(store.State()), id, revision), r, store.State())
    {
      hide Conflict, PaidAmount, Touched, Days;
      var found := Find(id, Some(revision));
      if found.Err? {
        return Err(found.error);
      }
      var row := found.value;
      if row.status == Cancelled {
        return Err(InvalidState);
      }
      if !(row.payBy in {Cash, Invoice, Postpay}) {
        return Err(InvalidState);
      }
      if row.payment != Paid {
        var due := Max(0, row.quote.total - PaidAmount(store.payments, id));
        store.payments := store.payments + [Payment(id, None, due, PaidIn)];
        LockDays(row.quote.room, row.quote.segments);
        var conflict := Conflict(store.bookings, store.now, row.quote.room, row.quote.segments, Some(id));
        var status := if conflict then AwaitingResolution
                      else if row.status == Confirmed then Confirmed else AwaitingConfirmation;
        store.PutBooking(id, row.(payment := Paid, expiresAt := None, status := status, attention := conflict,
                                  revision := row.revision + 1));
      }
      return Ok(());
    }

    method ResolveAttention(id: nat, revision: int) returns (r: Result<()>)
      requires Valid()
      modifies store
      ensures Did(Bookings.ResolveAttention(old(store.State()), id, revision), r, store.State())
    {
      hide Refundable;
      var found := Find(id, Some(revision));
      if found.Err? {
        return Err(found.error);
      }
      var row := found.value;
      if row.status == AwaitingResolution {
        return Err(ConflictUnresolved);
      }
      var left := hours.RefundableHours(id, row);
      if row.status != Cancelled && row.quote.writeoff > left {
        return Err(HoursRequired);
      }
      store.PutBooking(id, row.(attention := false, revision := row.revision + 1));
      return Ok(());
    }

    method Comment(id: nat, revision: int) returns (r: Result<()>)
      modifies store
      ensures Did(Bookings.Comment(old(store.State()), id, revision), r, store.State())
    {
      var found := Find(id, Some(revision));
      if found.Err? {
        return Err(found.error);
      }
      store.PutBooking(id, found.value.(revision := found.value.revision + 1));
      return Ok(());
    }

    /** Frees the time and gives back the hours; what was paid stays recorded and asks for attention. */
    method CancelInTransaction(id: nat, row: Booking) returns (r: Result<()>)
      requires Valid()
      modifies store
      ensures Did(Bookings.CancelInTransaction(old(store.State()), id, row), r, store.State())
    {
      hide ChangeHours, Refundable, PaidAmount, Touched, Days;
      if row.status == Cancelled {
        return Ok(());
      }
      LockDays(row.quote.room, row.quote.segments);
      ghost var locked := store.State();
      r := hours.Refund(id, row);
      if r.Err? {
        return;
      }
      RefundKeepsPayments(locked, id, row);
      var received := PaidAmount(store.payments, id);
      store.PutBooking(id, row.(status := Cancelled, expiresAt := None, hoursDebited := 0, attention := received > 0,
                                revision := row.revision + 1));
    }

    method CancelByAdmin(id: nat, revision: int) returns (r: Result<()>)
      requires Valid()
      modifies store
      ensures Did(Bookings.CancelByAdmin(old(store.State()), id, revision), r, store.State())
    {
      hide Bookings.CancelInTransaction;
      var found := Find(id, Some(revision));
      if found.Err? {
        return Err(found.error);
      }
      r := CancelInTransaction(id, found.value);
    }

    method CancelByCustomer(id: nat, revision: Option<int>, resident: bool) returns (r: Result<()>)
      requires Valid()
      modifies store
      ensures Did(Bookings.CancelByCustomer(old(store.State()), id, revision, resident), r, store.State())
    {
      hide Bookings.CancelInTransaction, AllOver;
      var found := Find(id, revision);
      if found.Err? {
        return Err(found.error);
      }
      var row := found.value;
      if !(row.status in {Hold, GuestRequest, AwaitingConfirmation, AwaitingPayment, Confirmed, PaidUp, Cancelled}) {
        return Err(InvalidState);
      }
      if resident && row.status != Cancelled && AllOver(row.quote.segments, store.now) {
        return Err(InvalidState);
      }
      r := CancelInTransaction(id, row);
    }

    method AdjustHours(id: nat, row: Booking, writeoff: int) returns (r: Result<()>)
      requires Valid()
      modifies store
      ensures Did(Bookings.AdjustHours(old(store.State()), id, row, writeoff), r, store.State())
    {
      hide ChangeHours, Refundable;
      var left := hours.RefundableHours(id, row);
      var delta := writeoff - left;
      if delta != 0 && row.resource.None? {
        return Err(InsufficientBalance);
      }
      r := Ok(());
      if delta > 0 {
        r := hours.Change(row.resource.value, -delta, Some(id));
      }
      if delta < 0 {
        var refund := Min(-delta, left);
        r := hours.Change(row.resource.value, refund, Some(id));
      }
    }

    /** The transaction of `change`: both the old and the new days are marked, then hours, then the rewritten booking. */
    method ApplyChange(id: nat, row: Booking, quote: Quote, payBy: Method, terms: InvoiceTerms) returns (r: Result<()>)
      requires Valid()
      modifies store
      ensures Did(Bookings.ApplyChange(old(store.State()), id, row, quote, payBy, terms), r, store.State())
    {
      hide Bookings.AdjustHours, Conflict, Touched, Days, PaidAmount, PolicyFor;
      LockDays(row.quote.room, row.quote.segments);
      r := AssertAvailable(quote.room, quote.segments, Some(id));
      if r.Err? {
        return;
      }
      ghost var locked := store.State();
      r := AdjustHours(id, row, quote.writeoff);
      if r.Err? {
        return;
      }
      Effects.AdjustKeepsOthers(locked, id, row, quote.writeoff);
      var received := PaidAmount(store.payments, id);
      var due := quote.total > received;
      if PayLater(payBy) && row.profile.Some? && row.profile.value in store.prepay {
        return Err(PrepayRequired);
      }
      if due && payBy == Invoice
         && !(row.profile.Some? && row.profile.value in store.profiles && store.profiles[row.profile.value].complete) {
        return Err(ProfileDataRequired);
      }
      if due && payBy == Balance {
        return Err(InsufficientBalance);
      }
      if payBy == NoMethod {
        return Err(ValidationError);
      }
      if due && payBy in {CardOnline, QrCode} {
        return Err(PaymentMethodRequired);
      }
      store.PutBooking(id, ChangedBooking(row, quote, payBy, received, PolicyFor(quote, payBy, store.now, terms)));
    }

    method Change(listing: Listing, id: nat, kind: Kind, input: ChangeInput, revision: Option<int>,
                  terms: InvoiceTerms, ahead: Ahead)
      returns (r: Result<()>)
      requires Valid()
      modifies store
      ensures Did(Bookings.Change(old(store.State()), listing, id, kind, input, revision, terms, ahead), r, store.State())
    {
      hide Bookings.ApplyChange, ChangeQuote, AnyInPast, AllOver;
      if id !in store.bookings {
        return Err(NotFound);
      }
      var original := store.bookings[id];
      if original.quote.segments == [] {
        return Err(ValidationError);
      }
      var quote := ChangeQuote(listing, original.quote, original.payBy, original.hoursDebited, kind, input);
      if quote.Err? {
        return Err(quote.error);
      }
      if kind != Extend && AnyInPast(quote.value.segments, ahead.now) {
        return Err(SlotInPast);
      }
      if kind == Extend && AllOver(original.quote.segments, ahead.now) {
        return Err(InvalidState);
      }
      var marked := if kind == Extend then quote.value.(services := []) else quote.value;
      if ahead.shown.Some? && ahead.shown.value != MarkOf(listing, marked) {
        return Err(PriceChanged);
      }
      var found := Find(id, Some(Or(revision, original.revision)));
      if found.Err? {
        return Err(found.error);
      }
      if !Changeable(found.value.status) {
        return Err(InvalidState);
      }
      r := ApplyChange(id, found.value, quote.value, Or(input.payBy, found.value.payBy), terms);
    }

    method BlockRoom(listing: Listing, input: QuoteInput) returns (r: Result<()>)
      requires Valid()
      modifies store
      ensures Did(Bookings.BlockRoom(old(store.State()), listing, input), r, store.State())
    {
      hide Bookings.AssertAvailable, MakeQuote;
      var quote := MakeQuote(listing, input.(payBy := Cash, services := [], writeoff := 0), 0);
      if quote.Err? {
        return Err(quote.error);
      }
      r := AssertAvailable(quote.value.room, quote.value.segments, None);
      if r.Err? {
        return;
      }
      var id := store.NextBookingId();
      store.PutBooking(id, Booking(quote.value, Blocked, Unpaid, NoMethod, None, None, None, 0, false,
                                   Policy(NoPolicy, 0, 0, NotTracked), None, 1, None));
    }
  }

  lemma RefundKeepsPayments(db: Db, id: nat, b: Booking)
    requires Refund(db, id, b).Ok?
    ensures Refund(db, id, b).value.payments == db.payments
  {
    hide EnsureAccount, Today, SpentSince, Available, Net;
  }
}
