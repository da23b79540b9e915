/** Extending a booking again and again: what rounding every extension on its own adds up to. */
module Extensions {
  import opened Results
  import opened Catalog
  import opened Records
  import opened Machine
  import opened Invariants
  import Revisions

  /** Event `e` leaves booking `id` alone, or asks to extend it in its room, which has this price an hour. */
  predicate ExtendsHourly(e: Event, id: nat, room: int, price: int) {
    e.Run? && e.command.ChangeBooking? && e.command.id == id ==>
      && e.command.kind == Extend && Or(e.command.change.room, room) == room
      && room in e.command.listing.rooms
      && e.command.listing.rooms[room].config.perHour && e.command.listing.rooms[room].config.price == price
  }

  /** The extensions of booking `id` in a run that were accepted. */
  function Accepted(db: Db, events: seq<Event>, id: nat): nat {
    if events == [] then 0
    else
      var rest, e := events[..|events| - 1], events[|events| - 1];
      Accepted(db, rest, id)
      + if e.Run? && e.command.ChangeBooking? && e.command.id == id && Execute(After(db, rest), e.command).Ok? then 1 else 0
  }

  /** One accepted extension moves the base price by the price of the added time, rounded. */
  lemma ExtensionStep(db: Db, e: Event, id: nat, price: int)
    requires Inv(db) && id in db.bookings && ExtendsHourly(e, id, db.bookings[id].quote.room, price)
    requires e.Run? && e.command.ChangeBooking? && e.command.id == id && Execute(db, e.command).Ok?
    ensures id in Step(db, e).bookings
    ensures var before, after := db.bookings[id].quote, Step(db, e).bookings[id].quote;
      && after.room == before.room && -30 <= Drift(after, price) - Drift(before, price) <= 30
      && after.duration > before.duration
  {
    hide Inv, Step, Drift, ChangeQuote, QuoteOk, HourlyRoom, ExtendsTo;
    var c, b := e.command, db.bookings[id];
    Stored(db, id);
    ExtendedQuote(db, c, id);
    var after := Step(db, e).bookings[id].quote;
    ExtendRoom(c.listing, b.quote, b.payBy, b.hoursDebited, c.change);
    ExtendAdds(c.listing, b.quote, b.payBy, b.hoursDebited, c.change);
    ToExtension(c.listing, b.quote, b.payBy, b.hoursDebited, c.change, after);
    InRoom(c.listing, b.quote.room);
    ExtensionDrift(c.listing, b.quote, after, c.listing.rooms[b.quote.room].config);
  }

  lemma InRoom(listing: Listing, room: int)
    requires room in listing.rooms && listing.rooms[room].config.perHour
    ensures HourlyRoom(listing, room, listing.rooms[room].config)
  {
  }

  lemma ToExtension(listing: Listing, from: Quote, payBy: Method, debited: int, input: ChangeInput, to: Quote)
    requires |from.segments| > 0 && ChangeQuote(listing, from, payBy, debited, Extend, input) == Ok(to) && to.room == from.room
    ensures ExtendsTo(listing, from, to)
  {
    hide ChangeQuote;
  }

  lemma ExtendedQuote(db: Db, c: Command, id: nat)
    requires c.ChangeBooking? && c.id == id && c.kind == Extend && id in db.bookings && Execute(db, c).Ok?
    requires |db.bookings[id].quote.segments| > 0
    ensures id in Step(db, Run(c)).bookings
    ensures var b := db.bookings[id];
      ChangeQuote(c.listing, b.quote, b.payBy, b.hoursDebited, Extend, c.change) == Ok(Step(db, Run(c)).bookings[id].quote)
  {
    hide ChangeQuote;
    Revisions.RequestedChangeWrites(Fenced(db), c.listing, id, c.kind, c.change, c.seen, c.terms, c.ahead);
  }

  /**
   On a room priced by the hour, in every run in which a booking is changed by extensions only, sixty times
   its base price stays within 30(n + 1) of the exact price of its time, n being the extensions accepted.
   */
  lemma {:induction false} DriftInRuns(db: Db, events: seq<Event>, id: nat, price: int)
    requires Inv(db) && id in db.bookings
    requires db.bookings[id].quote.base == PerHour(price, db.bookings[id].quote.duration)
    requires forall i :: 0 <= i < |events| ==> ExtendsHourly(events[i], id, db.bookings[id].quote.room, price)
    ensures var after, n := After(db, events), Accepted(db, events, id);
      && Inv(after) && id in after.bookings && after.bookings[id].quote.room == db.bookings[id].quote.room
      && -30 * (n + 1) <= Drift(after.bookings[id].quote, price) <= 30 * (n + 1)
  {
    hide Inv, Step, Drift, PerHour, ExtendsHourly, Execute;
    if events == [] {
      FirstDrift(db.bookings[id].quote, price);
    } else {
      var rest, e := events[..|events| - 1], events[|events| - 1];
      DriftInRuns(db, rest, id, price);
      var before := After(db, rest);
      StepInv(before, e);
      Revisions.StepWritten(before, e, id);
      if e.Run? && e.command.ChangeBooking? && e.command.id == id {
        if Execute(before, e.command).Ok? {
          ExtensionStep(before, e, id, price);
        } else {
          Refused(before, e.command);
        }
      }
    }
  }

  lemma Refused(db: Db, c: Command)
    requires Execute(db, c).Err?
    ensures Step(db, Run(c)) == db
  {
    hide Execute;
  }
}
