/** Payment results, expiry, payment policies and invoices, as functions on the store. */
module Payments {
  import opened Calendar
  import opened Results
  import opened Records
  import opened Hours
  import opened Bookings

  function Outstanding(db: Db, id: nat, b: Booking): (n: int)
    ensures n >= 0
  {
    Max(0, b.quote.total - PaidAmount(db.payments, id))
  }

  predicate KnownPayment(payments: seq<Payment>, pid: nat) {
    exists k | 0 <= k < |payments| :: payments[k].provider == Some(pid)
  }

  /**
   Records the provider's payment `pid`, once, and writes it to its booking without a new revision. `amount`
   is that of the intent, `reported` what the provider says in minor units of the right currency.
   */
  function AttachProviderPayment(db: Db, id: nat, pid: nat, amount: int, reported: Option<int>): Result<Db> {
    var b :- FindBooking(db, id);
    var _ :- Need(amount > 0 && reported == Some(amount), PaymentMismatch);
    var payments := if KnownPayment(db.payments, pid) then db.payments
                    else db.payments + [Payment(id, Some(pid), amount, Pending)];
    Ok(PutBooking(db.(payments := payments), id, b.(providerPayment := Some(pid))))
  }

  /** A payment whose outcome is not known any more is left to the administrators, whatever the booking's state. */
  function FlagUncertain(db: Db, id: nat): Result<Db> {
    if id !in db.bookings then Ok(db)
    else
      var b := db.bookings[id];
      Ok(PutBooking(db, id, b.(attention := true, revision := b.revision + 1)))
  }

  function WithState(db: Db, p: nat, state: PaymentState): Db
    requires p < |db.payments|
  {
    db.(payments := db.payments[p := db.payments[p].(state := state)])
  }

  datatype LateHours = LateHours(db: Db, debited: int, problem: bool)

  /** The hours of a booking held for an online payment are debited once it is fully paid. */
  function DebitLate(db: Db, id: nat, b: Booking, conflict: bool, remaining: int): Result<LateHours> {
    var net := Refundable(db, id, b);
    if conflict || remaining > 0 || b.quote.writeoff <= net then Ok(LateHours(db, b.hoursDebited, false))
    else if b.resource.None? then Err(ProfileUnavailable)
    else
      var ready :- Ensure(db, b.resource.value);
      if b.resource.value !in ready.accounts
         || Available(ready.accounts[b.resource.value], Today(ready.now)) < b.quote.writeoff - net
      then Ok(LateHours(ready, b.hoursDebited, true))
      else
        var moved :- ChangeHours(ready, b.resource.value, -(b.quote.writeoff - net), Some(id));
        Ok(LateHours(moved, b.quote.writeoff, false))
  }

  function PaidBooking(b: Booking, conflict: bool, remaining: int, late: LateHours): Booking {
    b.(payment := if remaining > 0 then Unpaid else Paid, expiresAt := None, hoursDebited := late.debited,
       status := if b.status == Cancelled then Cancelled
                 else if conflict then AwaitingResolution
                 else if remaining > 0 then AwaitingPayment
                 else if b.status == Confirmed then Confirmed
                 else AwaitingConfirmation,
       attention := conflict || late.problem, revision := b.revision + 1)
  }

  /** Money that arrived is always recorded; whether the booking revives depends on its slot. */
  function PaymentSucceeded(db: Db, p: nat, id: nat, b: Booking): Result<Db>
    requires p < |db.payments|
  {
    var received := LockDays(WithState(db, p, PaidIn), b.quote.room, b.quote.segments);
    var conflict := b.status == Cancelled
                    || Conflict(db.bookings, db.now, b.quote.room, b.quote.segments, Some(id));
    var remaining := Outstanding(received, id, b);
    var late :- DebitLate(received, id, b, conflict, remaining);
    Ok(PutBooking(late.db, id, PaidBooking(b, conflict, remaining, late)))
  }

  /** A recorded payment that is cancelled at the provider; a recorded paid payment stays paid. */
  function PaymentCancelled(db: Db, p: nat, id: nat, b: Booking): Result<Db>
    requires p < |db.payments|
  {
    var voided := if db.payments[p].state == PaidIn then db else WithState(db, p, Void);
    if b.status == Hold then CancelInTransaction(voided, id, b) else Ok(voided)
  }

  function PaymentResult(db: Db, p: nat, succeeded: bool): Result<Db> {
    if p >= |db.payments| || db.payments[p].provider.None? then Err(NotFound)
    else
      var id := db.payments[p].booking;
      var b :- FindBooking(db, id);
      if succeeded then PaymentSucceeded(db, p, id, b) else PaymentCancelled(db, p, id, b)
  }

  /** A result is taken over only when the provider reports the amount that was recorded. */
  function CheckedResult(db: Db, p: nat, succeeded: bool, reported: Option<int>): Result<Db> {
    var known := p < |db.payments| && db.payments[p].provider.Some?;
    var _ :- Need(known ==> reported == Some(db.payments[p].amount), PaymentMismatch);
    PaymentResult(db, p, succeeded)
  }

  /** The worker cancels a hold whose time is over. */
  function Expire(db: Db, id: nat): Result<Db> {
    if id in db.bookings && db.bookings[id].status == Hold
       && db.bookings[id].expiresAt.Some? && db.bookings[id].expiresAt.value <= db.now
    then CancelInTransaction(db, id, db.bookings[id])
    else Ok(db)
  }

  /** How late a payment is, by the policy the worker has seen. */
  function Lateness(policy: Policy, now: int): Overdueness {
    match policy.kind
    case InvoicePolicy => if policy.dueAt <= now then Overdue else Active
    case PostpayPolicy => if policy.dueAt <= now then Overdue else if policy.warnAt <= now then Warning else Active
    case NoPolicy => policy.state
  }

  function PolicyStatus(state: Overdueness): PaymentStatus {
    match state case Overdue => PostpayOverdue case Warning => PostpayWarning case _ => PostpayOpen
  }

  /** `seen` is the policy read before the transaction; it may be out of date by the time it is applied. */
  function PolicyTick(db: Db, id: nat, seen: Policy): Result<Db> {
    var state := Lateness(seen, db.now);
    if id !in db.bookings || state == seen.state
       || db.bookings[id].status == Cancelled || db.bookings[id].payment == Paid then Ok(db)
    else
      var b := db.bookings[id];
      var ticked := b.(policy := b.policy.(state := state),
                       payment := if seen.kind == PostpayPolicy then PolicyStatus(state) else b.payment,
                       revision := b.revision + 1);
      var marked := PutBooking(db, id, ticked);
      if state == Overdue && seen.kind == PostpayPolicy && b.profile.Some?
      then Ok(marked.(prepay := marked.prepay + {b.profile.value}))
      else Ok(marked)
  }

  function IssueInvoice(db: Db, id: nat, invoice: nat): Result<Db> {
    var b :- FindBooking(db, id);
    var _ :- Need(b.status != Cancelled, InvalidState);
    Ok(PutBooking(db, id, b.(invoice := Some(invoice), revision := b.revision + 1)))
  }
}
