/**
 Requests that carry a command key, over whole runs of the engine: however often a request is repeated,
 by a client, a worker or a webhook, the store goes through a run in which its command happens once.
 */
module Requests {
  import opened Results
  import opened Catalog
  import opened Records
  import opened Bookings
  import opened Fingerprint
  import opened Examples
  import Machine
  import Invariants
  import Revisions

  datatype Request = Request(key: string, form: Json, command: Machine.Command)

  /** The store with its receipts; a receipt keeps the fingerprinted form of the request it answers. */
  datatype Front = Front(db: Db, receipts: map<string, Json>)

  function Done<T>(r: Result<T>): Result<()> {
    match r case Ok(_) => Ok(()) case Err(e) => Err(e)
  }

  /** The booking a request names. */
  function Named(c: Machine.Command): Option<nat> {
    if c.ConfirmBooking? || c.MarkBookingPaid? || c.ResolveBooking? || c.CommentBooking? || c.CancelAsAdmin?
       || c.CancelAsCustomer? || c.ChangeBooking? then Some(c.id)
    else None
  }

  /**
   What a request does before it looks for a receipt: a booking it names is looked up, a block is priced
   under the listing now in force, a manual adjustment looks up the owner of the hours, and a payment is
   compared with what the provider reports now.
   */
  function Preliminary(db: Db, c: Machine.Command): Result<()> {
    match c
    case Block(listing, input) => Done(PrepareBlock(listing, input))
    case AdjustHoursBy(resource, _, _, amount, _) =>
      if resource !in db.profiles then Err(ProfileUnavailable) else Need(amount >= 1, ValidationError)
    case AttachPayment(_, _, amount, reported) => Need(reported == Some(amount), PaymentMismatch)
    case ReceiveResult(p, _, reported) =>
      if p >= |db.payments| || db.payments[p].provider.None? then Err(NotFound)
      else Need(reported == Some(db.payments[p].amount), PaymentMismatch)
    case _ => Need(Named(c).None? || Named(c).value in db.bookings, NotFound)
  }

  /** What a request checks after that and before its transaction, which refuses while writes are paused. */
  function Early(db: Db, c: Machine.Command): Result<()> {
    match c
    case CreateBooking(listing, input, party, _, ahead) => Done(Prepare(listing, input, party, ahead))
    case ChangeBooking(listing, id, kind, change, _, _, ahead) =>
      if id in db.bookings then Done(PrepareChange(db.bookings[id], listing, kind, change, ahead)) else Err(NotFound)
    case _ => Ok(())
  }

  function Handle(s: Front, r: Request): (Front, Result<()>) {
    if Preliminary(s.db, r.command).Err? then (s, Preliminary(s.db, r.command))
    else if r.key in s.receipts then
      (s, if s.receipts[r.key] == r.form then Ok(()) else Err(IdempotencyConflict))
    else if Early(s.db, r.command).Err? then (s, Early(s.db, r.command))
    else
      match Machine.Execute(s.db, r.command)
      case Ok(after) => (Front(after, s.receipts[r.key := r.form]), Ok(()))
      case Err(e) => (s, Err(e))
  }

  /**
   A request that is not refused beforehand is answered from the receipt of its key, if it has its payload, and is
   in conflict with it if it has another; without a receipt its command decides, and is recorded if it succeeds.
   */
  lemma HandleAnswers(s: Front, r: Request)
    requires Preliminary(s.db, r.command).Ok?
    ensures r.key in s.receipts && s.receipts[r.key] == r.form ==> Handle(s, r) == (s, Ok(()))
    ensures r.key in s.receipts && s.receipts[r.key] != r.form ==> Handle(s, r) == (s, Err(IdempotencyConflict))
    ensures r.key !in s.receipts && Early(s.db, r.command).Err? ==> Handle(s, r) == (s, Early(s.db, r.command))
    ensures r.key !in s.receipts && Early(s.db, r.command).Ok? ==>
              var done := Machine.Execute(s.db, r.command);
              && (done.Ok? ==> Handle(s, r) == (Front(done.value, s.receipts[r.key := r.form]), Ok(())))
              && (done.Err? ==> Handle(s, r) == (s, Err(done.error)))
  {
    hide Machine.Execute, Preliminary, Early;
  }

  datatype Event = Ask(request: Request) | Outside(event: Machine.Event)

  /** Everything but commands happens outside requests. */
  predicate Proper(e: Event) {
    e.Outside? ==> !e.event.Run?
  }

  function Step(s: Front, e: Event): Front {
    match e
    case Ask(r) => Handle(s, r).0
    case Outside(event) => s.(db := Machine.Step(s.db, event))
  }

  function After(s: Front, events: seq<Event>): Front {
    if events == [] then s else Step(After(s, events[..|events| - 1]), events[|events| - 1])
  }

  /** The run without the requests that changed nothing: repeats, conflicts of a key, and refusals. */
  function Effective(s: Front, events: seq<Event>): seq<Event> {
    if events == [] then []
    else
      var front, last := events[..|events| - 1], events[|events| - 1];
      Effective(s, front) + if last.Ask? && After(s, front) == After(s, events) then [] else [last]
  }

  function AsMachine(e: Event): Machine.Event {
    match e case Ask(r) => Machine.Run(r.command) case Outside(event) => event
  }

  function Plain(events: seq<Event>): seq<Machine.Event> {
    if events == [] then []
    else
      var last := events[|events| - 1];
      Plain(events[..|events| - 1]) + [AsMachine(last)]
  }

  /** No key is asked twice. */
  ghost predicate KeysOnce(events: seq<Event>) {
    forall i, j :: 0 <= i < j < |events| && events[i].Ask? && events[j].Ask? ==>
      events[i].request.key != events[j].request.key
  }

  lemma PlainAppend(events: seq<Event>, e: Event)
    ensures Plain(events + [e]) == Plain(events) + [AsMachine(e)]
  {
    assert (events + [e])[..|events|] == events;
  }

  lemma MachineAppend(db: Db, events: seq<Machine.Event>, e: Machine.Event)
    ensures Machine.After(db, events + [e]) == Machine.Step(Machine.After(db, events), e)
  {
    assert (events + [e])[..|events|] == events;
    hide Machine.Step;
  }

  /** A request that changes the service is its command, run once, under a new key. */
  lemma AskOnce(s: Front, r: Request)
    requires Handle(s, r).0 != s
    ensures r.key !in s.receipts && Handle(s, r).0.receipts == s.receipts[r.key := r.form]
    ensures Handle(s, r).0.db == Machine.Step(s.db, Machine.Run(r.command))
  {
    hide Machine.Execute, Preliminary, Early;
  }

  /**
   Every run of requests leaves the store that a run of the machine leaves in which each key's command
   happens at most once, and of which every command succeeded. What holds in every run of the machine
   therefore holds however requests are repeated.
   */
  lemma {:induction false} RepeatsVanish(s: Front, events: seq<Event>)
    requires forall i :: 0 <= i < |events| ==> Proper(events[i])
    ensures var effective := Effective(s, events);
      && After(s, events).db == Machine.After(s.db, Plain(effective)) && KeysOnce(effective)
      && (forall i :: 0 <= i < |effective| && effective[i].Ask? ==>
            effective[i].request.key in After(s, events).receipts && effective[i].request.key !in s.receipts)
      && s.receipts.Keys <= After(s, events).receipts.Keys
  {
    hide Machine.Step, Handle, KeysOnce, After, Effective, Plain, Machine.After;
    if events == [] {
      NoEvents(s);
    } else {
      var front, last := events[..|events| - 1], events[|events| - 1];
      RepeatsVanish(s, front);
      LastEvent(s, events);
      var before, effective := After(s, front), Effective(s, front);
      if !(last.Ask? && before == After(s, events)) {
        if last.Ask? {
          AskOnce(before, last.request);
        }
        PlainAppend(effective, last);
        MachineAppend(s.db, Plain(effective), AsMachine(last));
        OneMoreKey(effective, last);
      }
    }
  }

  lemma LastEvent(s: Front, events: seq<Event>)
    requires events != []
    ensures var front, last := events[..|events| - 1], events[|events| - 1];
      && After(s, events) == Step(After(s, front), last)
      && Effective(s, events) == if last.Ask? && After(s, front) == After(s, events) then Effective(s, front)
                                 else Effective(s, front) + [last]
  {
    hide Step;
  }

  lemma NoEvents(s: Front)
    ensures After(s, []) == s && Effective(s, []) == [] && Plain([]) == [] && Machine.After(s.db, []) == s.db && KeysOnce([])
  {
  }

  lemma OneMoreKey(events: seq<Event>, e: Event)
    requires KeysOnce(events)
    requires e.Ask? ==> forall i :: 0 <= i < |events| && events[i].Ask? ==> events[i].request.key != e.request.key
    ensures KeysOnce(events + [e])
  {
  }

  /** All invariants of the store hold in every run of requests. */
  lemma RequestsKeepInvariants(now: nat, events: seq<Event>)
    requires forall i :: 0 <= i < |events| ==> Proper(events[i])
    ensures Invariants.Inv(After(Front(Machine.Empty(now), map[]), events).db)
  {
    hide After, Plain, Effective, Machine.After, Invariants.Inv, Machine.Empty, KeysOnce;
    var s := Front(Machine.Empty(now), map[]);
    RepeatsVanish(s, events);
    Invariants.RunInv(now, Plain(Effective(s, events)));
  }

  /** A receipt is never taken back. */
  lemma {:induction false} ReceiptStays(s: Front, events: seq<Event>, key: string)
    requires key in s.receipts
    ensures key in After(s, events).receipts && After(s, events).receipts[key] == s.receipts[key]
  {
    if events != [] {
      ReceiptStays(s, events[..|events| - 1], key);
      hide Machine.Execute, Machine.Step;
    }
  }

  /**
   Two requests of one operation with one payload: a repeated block is priced under the listing of its own
   time, and a repeated payment is reported by the provider anew.
   */
  predicate Repeats(first: Machine.Command, again: Machine.Command) {
    match first
    case Block(_, input) => again.Block? && again.input == input
    case AdjustHoursBy(_, _, _, _, _) => again == first
    case AttachPayment(id, pid, amount, _) =>
      again.AttachPayment? && again.id == id && again.pid == pid && again.amount == amount
    case ReceiveResult(p, succeeded, _) =>
      again.ReceiveResult? && again.payment == p && again.succeeded == succeeded
    case _ =>
      && !again.Block? && !again.AdjustHoursBy? && !again.AttachPayment? && !again.ReceiveResult?
      && Named(again) == Named(first)
  }

  /** The block can still be priced, the owner is still there, the provider still reports the amount recorded. */
  predicate StillStands(db: Db, c: Machine.Command) {
    match c
    case Block(listing, input) => PrepareBlock(listing, input).Ok?
    case AdjustHoursBy(resource, _, _, _, _) => resource in db.profiles
    case AttachPayment(_, _, amount, reported) => reported == Some(amount)
    case ReceiveResult(p, _, reported) =>
      p < |db.payments| && db.payments[p].provider.Some? && reported == Some(db.payments[p].amount)
    case _ => true
  }

  /**
   Once a request has succeeded, repeating it changes nothing in any run, pauses included, and it is
   answered if and only if it is neither a block that cannot be priced any more, nor an adjustment whose
   owner is gone, nor a payment the provider now reports with another amount; another payload under its
   key is never answered.
   */
  lemma RepeatAnsweredIff(s: Front, r: Request, events: seq<Event>, again: Request)
    requires Invariants.Inv(s.db) && forall i :: 0 <= i < |events| ==> Proper(events[i])
    requires Handle(s, r).1.Ok? && again.key == r.key && Repeats(r.command, again.command)
    ensures var later := After(Handle(s, r).0, events);
      && Handle(later, again).0 == later
      && (Handle(later, again).1.Ok? <==> again.form == r.form && StillStands(later.db, again.command))
  {
    hide Machine.Execute, After, Invariants.Inv, Early, PrepareBlock;
    var first := Handle(s, r).0;
    ReceiptStays(first, events, r.key);
    HandledInv(s, r);
    if Named(r.command).Some? {
      BookingStays(s, r, events, Named(r.command).value);
    }
  }

  lemma HandledInv(s: Front, r: Request)
    requires Invariants.Inv(s.db)
    ensures Invariants.Inv(Handle(s, r).0.db)
    ensures s.db.bookings.Keys <= Handle(s, r).0.db.bookings.Keys
  {
    hide Invariants.Inv, Machine.Step, Preliminary, Early;
    if Handle(s, r).0 != s {
      AskOnce(s, r);
      Invariants.StepInv(s.db, Machine.Run(r.command));
      forall id | id in s.db.bookings ensures id in Handle(s, r).0.db.bookings {
        Revisions.StepWritten(s.db, Machine.Run(r.command), id);
      }
    }
  }

  lemma BookingStays(s: Front, r: Request, events: seq<Event>, id: nat)
    requires Invariants.Inv(s.db) && forall i :: 0 <= i < |events| ==> Proper(events[i])
    requires id in s.db.bookings
    ensures id in After(Handle(s, r).0, events).db.bookings
  {
    hide Machine.Step, After, Invariants.Inv, Handle, Effective, Plain, Machine.After, KeysOnce;
    HandledInv(s, r);
    RepeatsVanish(Handle(s, r).0, events);
    Revisions.RevisionTells(Handle(s, r).0.db, Plain(Effective(Handle(s, r).0, events)), id);
  }

  /** A repeated block is refused, though its receipt is there, once its room has been withdrawn. */
  lemma BlockRepeatRefused(form: Json)
    ensures var first := Request("block-0001", form, Machine.Block(HALL, Hour(SOON, Cash)));
      var again := Request("block-0001", form, Machine.Block(WITHDRAWN, Hour(SOON, Cash)));
      var (s, answer) := Handle(Front(Machine.Empty(0), map[]), first);
      && answer == Ok(()) && "block-0001" in s.receipts && s.receipts["block-0001"] == form
      && Handle(s, again) == (s, Err(NotFound))
  {
    HourQuoted(SOON, Cash);
    hide MakeQuote, Touched, HourQuote;
    assert Hour(SOON, Cash).(payBy := Cash, services := [], writeoff := 0) == Hour(SOON, Cash);
    var start, q := Machine.Fenced(Machine.Empty(0)), HourQuote(SOON);
    assert !Conflict(start.bookings, start.now, q.room, q.segments, None);
  }

  /** A repeated adjustment is refused, though its receipt is there, once the owner of the hours is gone. */
  lemma AdjustRepeatRefused(s: Front, r: Request)
    requires Handle(s, r).1.Ok? && r.command.AdjustHoursBy?
    ensures var gone := Outside(Machine.SetProfile(r.command.resource, None));
      var later := After(Handle(s, r).0, [gone]);
      r.key in later.receipts && Handle(later, r) == (later, Err(ProfileUnavailable))
  {
    var gone := Outside(Machine.SetProfile(r.command.resource, None));
    assert [gone][..0] == [] && After(Handle(s, r).0, []) == Handle(s, r).0;
    ReceiptStays(Handle(s, r).0, [gone], r.key);
    hide Machine.Execute;
  }
}
