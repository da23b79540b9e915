/**
 What becomes of money: a result of the provider, a payment that is attached or flagged, a hold that runs out,
 a policy that moves on and an invoice, each with everything it writes.
 */
module Settlements {
  import opened Calendar
  import opened Results
  import opened Segments
  import opened Records
  import opened Hours
  import opened Bookings
  import opened Payments
  import opened Machine
  import opened Invariants
  import opened Slots
  import opened Acceptance
  import Effects

  // ---------------------------------------------------------------- recorded money

  /** Only payments that have come in count, each for its own booking. */
  lemma PaidCounts(payments: seq<Payment>, p: Payment, id: nat)
    ensures PaidAmount([], id) == 0
    ensures PaidAmount(payments + [p], id)
         == PaidAmount(payments, id) + (if p.booking == id && p.state == PaidIn then p.amount else 0)
  {
    PaidAppend(payments, p, id);
  }

  /** Every other booking, and every collection but bookings, room-days, accounts, ledger and payments, is as it was. */
  predicate OnlyBooking(before: Db, after: Db, id: nat) {
    && after.bookings.Keys == before.bookings.Keys
    && (forall j :: j in before.bookings && j != id ==> after.bookings[j] == before.bookings[j])
    && after.now == before.now && after.profiles == before.profiles && after.nextBooking == before.nextBooking
    && after.prepay == before.prepay && after.fence == before.fence && after.writable == before.writable
  }

  /** Of the payments only the state of one has changed. */
  predicate OnlyState(before: seq<Payment>, after: seq<Payment>, p: nat, state: PaymentState) {
    && |after| == |before| && p < |before|
    && (forall k :: 0 <= k < |before| && k != p ==> after[k] == before[k])
    && after[p].booking == before[p].booking && after[p].provider == before[p].provider
    && after[p].amount == before[p].amount && after[p].state == state
  }

  // ---------------------------------------------------------------- a result of the provider

  /** A result is taken over if and only if the payment is recorded, for the amount reported, and its booking is there and can be written. */
  lemma ResultAnswers(db: Db, p: nat, succeeded: bool, reported: Option<int>)
    requires Inv(db)
    ensures var answer := Body(db, ReceiveResult(p, succeeded, reported));
      if p >= |db.payments| || db.payments[p].provider.None? then answer == Err(NotFound)
      else if reported != Some(db.payments[p].amount) then answer == Err(PaymentMismatch)
      else db.payments[p].booking in db.bookings
  {
    hide Inv, PaymentSucceeded, PaymentCancelled;
    if p < |db.payments| {
      PaymentKnown(db, p);
    }
  }

  lemma PaymentKnown(db: Db, p: nat)
    requires Inv(db) && p < |db.payments|
    ensures db.payments[p].booking in db.bookings
  {
    hide LedgerInv, Good, Disjoint, Tagged;
  }

  /**
   A payment that the provider has cancelled ends the hold it was made for at once: the booking is cancelled, has
   no hours debited and leaves its time to others. A booking in any other state is not touched, nor are hours.
   The payment is void, unless it had come in before, and then stays.
   */
  lemma CancelledResult(db: Db, p: nat, reported: Option<int>)
    requires Inv(db) && Body(db, ReceiveResult(p, false, reported)).Ok?
    ensures p < |db.payments| && db.payments[p].booking in db.bookings
    ensures var id := db.payments[p].booking;
      var before, after := db.bookings[id], Body(db, ReceiveResult(p, false, reported)).value;
      && OnlyBooking(db, after, id)
      && OnlyState(db.payments, after.payments, p, if db.payments[p].state == PaidIn then PaidIn else Void)
      && (before.status != Hold ==> after.bookings == db.bookings && after.ledger == db.ledger
                                    && after.accounts == db.accounts && after.roomDays == db.roomDays)
      && (before.status == Hold ==>
            && after.bookings[id].status == Cancelled && after.bookings[id].expiresAt == None
            && after.bookings[id].hoursDebited == 0 && !Live(after.bookings[id], db.now)
            && after.bookings[id].quote == before.quote && after.bookings[id].revision == before.revision + 1
            && after.bookings[id].payment == before.payment
            && (after.bookings[id].attention <==> PaidAmount(db.payments, id) > 0))
  {
    hide Inv, CancelInTransaction, PaidAmount;
    var id := db.payments[p].booking;
    PaymentKnown(db, p);
    var voided := if db.payments[p].state == PaidIn then db else WithState(db, p, Void);
    if db.bookings[id].status == Hold {
      CancelEffect(voided, id, db.bookings[id]);
      if db.payments[p].state != PaidIn {
        VoidCountsNothing(db, p, id);
      }
    }
  }

  lemma VoidCountsNothing(db: Db, p: nat, id: nat)
    requires p < |db.payments| && db.payments[p].state != PaidIn
    ensures PaidAmount(WithState(db, p, Void).payments, id) == PaidAmount(db.payments, id)
  {
    PaidUpdate(db.payments, p, db.payments[p].(state := Void), id);
    hide PaidAmount;
  }

  /** What cancelling writes on the booking, whatever hours it gives back. */
  lemma CancelEffect(db: Db, id: nat, b: Booking)
    requires id in db.bookings && b == db.bookings[id] && b.status != Cancelled && CancelInTransaction(db, id, b).Ok?
    ensures var after := CancelInTransaction(db, id, b).value;
      && OnlyBooking(db, after, id) && after.payments == db.payments
      && after.bookings[id] == b.(status := Cancelled, expiresAt := None, hoursDebited := 0,
                                  attention := PaidAmount(db.payments, id) > 0, revision := b.revision + 1)
  {
    hide ChangeHours, Refundable, PaidAmount, Touched, Days;
    var locked := LockDays(db, b.quote.room, b.quote.segments);
    if b.resource.Some? {
      Effects.HoursKeepOthers(locked, b.resource.value, Refundable(locked, id, b), Some(id));
    }
  }

  /** The state a booking gets from money that has come in. */
  predicate SettledBy(before: Booking, after: Booking, taken: bool, covered: bool) {
    && (before.status == Cancelled ==> after.status == Cancelled && after.attention)
    && (before.status != Cancelled && taken ==> after.status == AwaitingResolution && after.attention)
    && (before.status != Cancelled && !taken && !covered ==> after.status == AwaitingPayment && !after.attention)
    && (before.status != Cancelled && !taken && covered ==>
          after.status == if before.status == Confirmed then Confirmed else AwaitingConfirmation)
    && after.payment == (if covered then Paid else Unpaid) && after.expiresAt == None
    && after.quote == before.quote && after.payBy == before.payBy && after.resource == before.resource
    && after.revision == before.revision + 1
  }

  /**
   A payment that has come in is recorded, whatever its booking's state: the booking is paid exactly when its
   payments cover the total, and keeps or gets its place exactly when its time is free. Hours held back are
   taken when it is covered and has its time and they can be spent; too few hours ask for attention instead.
   */
  lemma SucceededResult(db: Db, p: nat, reported: Option<int>)
    requires Inv(db) && Body(db, ReceiveResult(p, true, reported)).Ok?
    ensures p < |db.payments| && db.payments[p].booking in db.bookings
    ensures var id := db.payments[p].booking;
      var before, after := db.bookings[id], Body(db, ReceiveResult(p, true, reported)).value;
      && OnlyBooking(db, after, id) && OnlyState(db.payments, after.payments, p, PaidIn)
      && var taken := Taken(db, before.quote.room, before.quote.segments, Some(id));
         var covered := PaidAmount(after.payments, id) >= before.quote.total;
         var missing := before.quote.writeoff - before.hoursDebited;
         && SettledBy(before, after.bookings[id], taken, covered)
         && (before.status == Cancelled || taken || !covered || missing <= 0 ==>
               after.ledger == db.ledger && after.accounts == db.accounts
               && after.bookings[id].hoursDebited == before.hoursDebited)
         && (before.status != Cancelled && !taken && covered ==>
               if missing <= 0 then !after.bookings[id].attention
               else if CanSpend(db, before.resource, missing)
               then !after.bookings[id].attention && after.bookings[id].hoursDebited == before.quote.writeoff
               else after.bookings[id].attention && after.bookings[id].hoursDebited == before.hoursDebited)
  {
    hide Inv, PaymentSucceeded, PaymentCancelled, Taken, PaidAmount, Conflict, CanSpend, SettledBy;
    PaymentKnown(db, p);
    var id := db.payments[p].booking;
    var b := db.bookings[id];
    Stored(db, id);
    LiveBlocks(db, id);
    ConflictIsTaken(db, b.quote.room, b.quote.segments, Some(id));
    RefundableIsRecorded(db, id);
    ReceivedParts(db, p, id, b);
  }

  lemma ReceivedParts(db: Db, p: nat, id: nat, b: Booking)
    requires p < |db.payments| && id in db.bookings && b == db.bookings[id] && PaymentSucceeded(db, p, id, b).Ok?
    requires Refundable(db, id, b) == b.hoursDebited
    ensures var after := PaymentSucceeded(db, p, id, b).value;
      var taken := Conflict(db.bookings, db.now, b.quote.room, b.quote.segments, Some(id));
      var covered := PaidAmount(after.payments, id) >= b.quote.total;
      var missing := b.quote.writeoff - b.hoursDebited;
      && OnlyBooking(db, after, id) && OnlyState(db.payments, after.payments, p, PaidIn)
      && SettledBy(b, after.bookings[id], taken, covered)
      && (b.status == Cancelled || taken || !covered || missing <= 0 ==>
            after.ledger == db.ledger && after.accounts == db.accounts && after.bookings[id].hoursDebited == b.hoursDebited)
      && (b.status != Cancelled && !taken && covered ==>
            if missing <= 0 then !after.bookings[id].attention
            else if CanSpend(db, b.resource, missing)
            then !after.bookings[id].attention && after.bookings[id].hoursDebited == b.quote.writeoff
            else after.bookings[id].attention && after.bookings[id].hoursDebited == b.hoursDebited)
  {
    hide PaidAmount, Conflict, CanSpend, Touched, Days, Refundable, DebitLate;
    var received := LockDays(WithState(db, p, PaidIn), b.quote.room, b.quote.segments);
    var taken := Conflict(db.bookings, db.now, b.quote.room, b.quote.segments, Some(id));
    var conflict := b.status == Cancelled || taken;
    var remaining := Outstanding(received, id, b);
    RefundableKept(db, received, id, b);
    LateParts(received, id, b, conflict, remaining);
    SpendAsBefore(db, received, b.resource, b.quote.writeoff - b.hoursDebited);
  }

  /** Money is kept out only when hours are due and their owner is gone, or his balance is no safe integer. */
  lemma MoneyRefused(db: Db, p: nat)
    requires Inv(db) && p < |db.payments| && db.payments[p].provider.Some?
    requires Body(db, ReceiveResult(p, true, Some(db.payments[p].amount))).Err?
    ensures Body(db, ReceiveResult(p, true, Some(db.payments[p].amount))).error in {ProfileUnavailable, InvalidBalance}
  {
    hide Inv, Conflict, PaidAmount, Touched, Days, Refundable, DebitLate, PaidBooking;
    PaymentKnown(db, p);
    var id := db.payments[p].booking;
    var b := db.bookings[id];
    var received := LockDays(WithState(db, p, PaidIn), b.quote.room, b.quote.segments);
    var conflict := b.status == Cancelled || Conflict(db.bookings, db.now, b.quote.room, b.quote.segments, Some(id));
    LateRefused(received, id, b, conflict, Outstanding(received, id, b));
  }

  lemma LateRefused(db: Db, id: nat, b: Booking, conflict: bool, remaining: int)
    ensures DebitLate(db, id, b, conflict, remaining).Err? ==>
              DebitLate(db, id, b, conflict, remaining).error in {ProfileUnavailable, InvalidBalance}
  {
    hide EnsureAccount, Today, SpentSince, Refundable, Available;
    if b.resource.Some? && b.resource.value in db.profiles {
      EnsureGives(db, b.resource.value);
      EnsureIdempotent(db, b.resource.value);
    }
  }

  lemma SpendAsBefore(db: Db, received: Db, resource: Option<nat>, missing: int)
    requires received.accounts == db.accounts && received.ledger == db.ledger && received.profiles == db.profiles
    requires received.now == db.now
    ensures CanSpend(received, resource, missing) <==> CanSpend(db, resource, missing)
  {
    hide EnsureAccount, Today, Spent, Available;
  }

  /** What the late debit does, by whether it is due and whether the hours can be spent. */
  lemma LateParts(db: Db, id: nat, b: Booking, conflict: bool, remaining: int)
    requires DebitLate(db, id, b, conflict, remaining).Ok?
    ensures var late := DebitLate(db, id, b, conflict, remaining).value;
      var missing := b.quote.writeoff - Refundable(db, id, b);
      && late.db == db.(accounts := late.db.accounts, ledger := late.db.ledger)
      && (conflict || remaining > 0 || missing <= 0 ==> late == LateHours(db, b.hoursDebited, false))
      && (!(conflict || remaining > 0 || missing <= 0) ==>
            if CanSpend(db, b.resource, missing) then !late.problem && late.debited == b.quote.writeoff
            else late.problem && late.debited == b.hoursDebited)
  {
    hide ChangeHours, Ensure, UpToDate, Today, Available, Refundable;
    if b.resource.Some? {
      EnsureGives(db, b.resource.value);
      Effects.HoursKeepOthers(db, b.resource.value, 0, None);
      if b.resource.value in db.profiles {
        var ready := Ensure(db, b.resource.value).value;
        Effects.HoursKeepOthers(ready, b.resource.value, -(b.quote.writeoff - Refundable(db, id, b)), Some(id));
      }
    }
  }

  // ---------------------------------------------------------------- a payment that is made

  /** A provider's payment is recorded once, as pending, for the amount of the intent, and named on its booking; nothing else changes. */
  lemma AttachedPayment(db: Db, id: nat, pid: nat, amount: int, reported: Option<int>)
    ensures var answer := Body(db, AttachPayment(id, pid, amount, reported));
      if id !in db.bookings then answer == Err(NotFound)
      else if amount <= 0 || reported != Some(amount) then answer == Err(PaymentMismatch)
      else
        && answer.Ok? && id in answer.value.bookings
        && answer.value == db.(bookings := answer.value.bookings, payments := answer.value.payments)
        && OnlyBooking(db, answer.value, id)
        && answer.value.bookings[id] == db.bookings[id].(providerPayment := Some(pid))
        && answer.value.payments
           == if exists k :: 0 <= k < |db.payments| && db.payments[k].provider == Some(pid) then db.payments
              else db.payments + [Payment(id, Some(pid), amount, Pending)]
  {
  }

  /** A payment of unknown outcome asks for attention on its booking, in any state, and changes nothing else. */
  lemma FlaggedPayment(db: Db, id: nat)
    ensures var answer := Body(db, FlagPayment(id));
      && answer.Ok? && (id !in db.bookings ==> answer.value == db)
      && (id in db.bookings ==>
            id in answer.value.bookings && OnlyBooking(db, answer.value, id)
            && answer.value == db.(bookings := answer.value.bookings)
            && answer.value.bookings[id] == db.bookings[id].(attention := true, revision := db.bookings[id].revision + 1))
  {
  }

  // ---------------------------------------------------------------- the worker's commands

  /** A hold is cancelled exactly when its time is over, to the moment; nothing else is touched. */
  lemma ExpiredHold(db: Db, id: nat)
    requires Inv(db) && Body(db, ExpireHold(id)).Ok?
    ensures var after := Body(db, ExpireHold(id)).value;
      var due := id in db.bookings && db.bookings[id].status == Hold && db.bookings[id].expiresAt.Some?
                 && db.bookings[id].expiresAt.value <= db.now;
      && (!due ==> after == db)
      && (due ==> && OnlyBooking(db, after, id) && after.payments == db.payments
                  && after.bookings[id].status == Cancelled && !Live(after.bookings[id], db.now)
                  && after.bookings[id].hoursDebited == 0)
  {
    hide Inv, CancelInTransaction, PaidAmount;
    if Body(db, ExpireHold(id)).value != db {
      CancelEffect(db, id, db.bookings[id]);
    }
    if id in db.bookings && db.bookings[id].status == Hold && db.bookings[id].expiresAt.Some?
       && db.bookings[id].expiresAt.value <= db.now {
      CancelEffect(db, id, db.bookings[id]);
    }
  }

  /**
   A policy that has moved on is written, with the postpayment's status of the same name; only an overdue
   postpayment puts a demand on the profile of the booking.
   */
  lemma PolicyMovesOn(db: Db, id: nat, seen: Policy)
    ensures Body(db, TickPolicy(id, seen)).Ok?
    ensures var after := Body(db, TickPolicy(id, seen)).value;
      var late, warned := seen.dueAt <= db.now, seen.warnAt <= db.now;
      var state := match seen.kind
        case InvoicePolicy => if late then Overdue else Active
        case PostpayPolicy => if late then Overdue else if warned then Warning else Active
        case NoPolicy => seen.state;
      var moves := id in db.bookings && state != seen.state && db.bookings[id].status != Cancelled
                   && db.bookings[id].payment != Paid;
      && (!moves ==> after == db)
      && (moves ==>
            && id in after.bookings && after.payments == db.payments && after.ledger == db.ledger
            && (forall j :: j in db.bookings && j != id ==> j in after.bookings && after.bookings[j] == db.bookings[j])
            && var before, b := db.bookings[id], after.bookings[id];
               && b == before.(policy := b.policy, payment := b.payment, revision := before.revision + 1)
               && b.policy == before.policy.(state := state)
               && (seen.kind != PostpayPolicy ==> b.payment == before.payment)
               && (seen.kind == PostpayPolicy && state == Overdue ==> b.payment == PostpayOverdue)
               && (seen.kind == PostpayPolicy && state == Warning ==> b.payment == PostpayWarning)
               && (seen.kind == PostpayPolicy && state == Active ==> b.payment == PostpayOpen)
               && after.prepay == if seen.kind == PostpayPolicy && state == Overdue && before.profile.Some?
                                  then db.prepay + {before.profile.value} else db.prepay)
  {
  }

  /** An invoice is named on a booking that is not cancelled, with a new revision; nothing else changes. */
  lemma InvoiceNamed(db: Db, id: nat, invoice: nat)
    ensures var answer := Body(db, Invoiced(id, invoice));
      if id !in db.bookings then answer == Err(NotFound)
      else if db.bookings[id].status == Cancelled then answer == Err(InvalidState)
      else
        && answer.Ok? && id in answer.value.bookings && OnlyBooking(db, answer.value, id)
        && answer.value == db.(bookings := answer.value.bookings)
        && answer.value.bookings[id] == db.bookings[id].(invoice := Some(invoice), revision := db.bookings[id].revision + 1)
  {
  }

  /** While writes are paused every command is refused and nothing is written; otherwise its body decides. */
  lemma PausedRefused(db: Db, c: Command)
    ensures !db.writable ==> Execute(db, c) == Err(Maintenance) && Step(db, Run(c)) == db
    ensures db.writable ==> Execute(db, c) == Body(db.(fence := db.fence + 1), c)
  {
    hide Body;
  }
}
