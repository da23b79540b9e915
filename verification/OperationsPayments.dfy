/** Payment results and commands as they update the store in place. */
module OperationsPayments {
  import opened Calendar
  import opened Results
  import opened Segments
  import opened Catalog
  import opened Records
  import opened Hours
  import opened Bookings
  import opened Payments
  import opened Machine
  import opened OperationsStore
  import opened OperationsBookings
  import Fingerprint
  import Requests
  import opened Worker

  class PaymentsService {
    const store: Store
    const bookings: BookingsService

    predicate Valid() {
      bookings.store == store && bookings.Valid()
    }

    constructor (bookings: BookingsService)
      requires bookings.Valid()
      ensures Valid() && this.bookings == bookings && store == bookings.store
    {
      this.bookings, this.store := bookings, bookings.store;
    }

    method AttachProviderPayment(id: nat, pid: nat, amount: int, reported: Option<int>) returns (r: Result<()>)
      modifies store
      ensures Did(Payments.AttachProviderPayment(old(store.State()), id, pid, amount, reported), r, store.State())
    {
      hide KnownPayment;
      if id !in store.bookings {
        return Err(NotFound);
      }
      if !(amount > 0 && reported == Some(amount)) {
        return Err(PaymentMismatch);
      }
      if !KnownPayment(store.payments, pid) {
        store.payments := store.payments + [Payment(id, Some(pid), amount, Pending)];
      }
      store.PutBooking(id, store.bookings[id].(providerPayment := Some(pid)));
      return Ok(());
    }

    method FlagUncertain(id: nat) returns (r: Result<()>)
      modifies store
      ensures Did(Payments.FlagUncertain(old(store.State()), id), r, store.State())
    {
      if id in store.bookings {
        var row := store.bookings[id];
        store.PutBooking(id, row.(attention := true, revision := row.revision + 1));
      }
      return Ok(());
    }

    /** Debits the hours held back until the payment; the reply says how many are debited and whether some are missing. */
    method DebitLate(id: nat, row: Booking, conflict: bool, remaining: int) returns (r: Result<(int, bool)>)
      requires Valid()
      modifies store
      ensures match Payments.DebitLate(old(store.State()), id, row, conflict, remaining)
              case Ok(late) => r == Ok((late.debited, late.problem)) && store.State() == late.db
              case Err(e) => r == Err(e)
    {
      hide Refundable, Ensure, ChangeHours, Available, Today;
      var net := bookings.hours.RefundableHours(id, row);
      if conflict || remaining > 0 || row.quote.writeoff <= net {
        return Ok((row.hoursDebited, false));
      }
      if row.resource.None? {
        return Err(ProfileUnavailable);
      }
      var required := row.quote.writeoff - net;
      var account := bookings.hours.Ensure(row.resource.value);
      if account.Err? {
        return Err(account.error);
      }
      if Available(account.value, Today(store.now)) < required {
        return Ok((row.hoursDebited, true));
      }
      var moved := bookings.hours.Change(row.resource.value, -required, Some(id));
      if moved.Err? {
        return Err(moved.error);
      }
      return Ok((row.quote.writeoff, false));
    }

    /** Money that arrived is recorded first; then the slot decides what becomes of the booking. */
    method Succeed(p: nat, id: nat, row: Booking) returns (r: Result<()>)
      requires Valid() && p < |store.payments|
      modifies store
      ensures p < |old(store.payments)| && Did(PaymentSucceeded(old(store.State()), p, id, row), r, store.State())
    {
      hide Conflict, PaidAmount, Touched, Days, Payments.DebitLate;
      store.payments := store.payments[p := store.payments[p].(state := PaidIn)];
      bookings.LockDays(row.quote.room, row.quote.segments);
      var conflict := row.status == Cancelled
                      || Conflict(store.bookings, store.now, row.quote.room, row.quote.segments, Some(id));
      var remaining := Max(0, row.quote.total - PaidAmount(store.payments, id));
      var late := DebitLate(id, row, conflict, remaining);
      if late.Err? {
        return Err(late.error);
      }
      var (debited, hoursProblem) := late.value;
      var status := if row.status == Cancelled then Cancelled
                    else if conflict then AwaitingResolution
                    else if remaining > 0 then AwaitingPayment
                    else if row.status == Confirmed then Confirmed
                    else AwaitingConfirmation;
      store.PutBooking(id, row.(payment := if remaining > 0 then Unpaid else Paid, expiresAt := None,
                                hoursDebited := debited, status := status, attention := conflict || hoursProblem,
                                revision := row.revision + 1));
      return Ok(());
    }

    method ReceiveResult(p: nat, succeeded: bool, reported: Option<int>) returns (r: Result<()>)
      requires Valid()
      modifies store
      ensures Did(CheckedResult(old(store.State()), p, succeeded, reported), r, store.State())
    {
      hide PaymentSucceeded, CancelInTransaction;
      if p >= |store.payments| || store.payments[p].provider.None? {
        return Err(NotFound);
      }
      if reported != Some(store.payments[p].amount) {
        return Err(PaymentMismatch);
      }
      var id := store.payments[p].booking;
      if id !in store.bookings {
        return Err(NotFound);
      }
      var row := store.bookings[id];
      if succeeded {
        r := Succeed(p, id, row);
        return;
      }
      if store.payments[p].state != PaidIn {
        store.payments := store.payments[p := store.payments[p].(state := Void)];
      }
      if row.status == Hold {
        r := bookings.CancelInTransaction(id, row);
        return;
      }
      return Ok(());
    }

    method Expire(id: nat) returns (r: Result<()>)
      requires Valid()
      modifies store
      ensures Did(Payments.Expire(old(store.State()), id), r, store.State())
    {
      hide CancelInTransaction;
      if id in store.bookings && Lapsed(store.bookings[id], store.now) {
        r := bookings.CancelInTransaction(id, store.bookings[id]);
        return;
      }
      return Ok(());
    }

    /** `seen` is the policy the worker read before this transaction. */
    method TickPolicy(id: nat, seen: Policy) returns (r: Result<()>)
      modifies store
      ensures Did(PolicyTick(old(store.State()), id, seen), r, store.State())
    {
      var state := Lateness(seen, store.now);
      if id !in store.bookings || state == seen.state {
        return Ok(());
      }
      var row := store.bookings[id];
      if row.status == Cancelled || row.payment == Paid {
        return Ok(());
      }
      var payment := if seen.kind == PostpayPolicy then PolicyStatus(state) else row.payment;
      store.PutBooking(id, row.(policy := row.policy.(state := state), payment := payment, revision := row.revision + 1));
      if state == Overdue && seen.kind == PostpayPolicy && row.profile.Some? {
        store.prepay := store.prepay + {row.profile.value};
      }
      return Ok(());
    }

    method IssueInvoice(id: nat, invoice: nat) returns (r: Result<()>)
      modifies store
      ensures Did(Payments.IssueInvoice(old(store.State()), id, invoice), r, store.State())
    {
      if id !in store.bookings {
        return Err(NotFound);
      }
      var row := store.bookings[id];
      if row.status == Cancelled {
        return Err(InvalidState);
      }
      store.PutBooking(id, row.(invoice := Some(invoice), revision := row.revision + 1));
      return Ok(());
    }
  }

  class Operations {
    const store: Store
    const hours: HoursService
    const bookings: BookingsService
    const payments: PaymentsService
    var receipts: map<string, Fingerprint.Json>

    predicate Valid() {
      && hours.store == store && bookings.store == store && payments.store == store
      && bookings.Valid() && payments.Valid()
    }

    constructor (now: nat)
      ensures Valid() && receipts == map[] && store.State() == Empty(now) && fresh(store)
    {
      var store := new Store(now);
      var hours := new HoursService(store);
      var bookings := new BookingsService(hours);
      this.store, this.hours, this.bookings := store, hours, bookings;
      this.receipts := map[];
      this.payments := new PaymentsService(bookings);
    }

    /** The body of a command. */
    method Dispatch(c: Command) returns (r: Result<()>)
      requires Valid()
      modifies store
      ensures Did(Body(old(store.State()), c), r, store.State())
    {
      hide Create, Confirm, MarkPaid, ResolveAttention, Comment, CancelByAdmin, CancelByCustomer, Change, BlockRoom,
        AttachProviderPayment, CheckedResult, FlagUncertain, Expire, PolicyTick, IssueInvoice, AdjustManually, Ensure;
      match c
      case CreateBooking(listing, input, party, terms, ahead) => r := bookings.Create(listing, input, party, terms, ahead);
      case ConfirmBooking(id, revision) => r := bookings.Confirm(id, revision);
      case MarkBookingPaid(id, revision) => r := bookings.MarkPaid(id, revision);
      case ResolveBooking(id, revision) => r := bookings.ResolveAttention(id, revision);
      case CommentBooking(id, revision) => r := bookings.Comment(id, revision);
      case CancelAsAdmin(id, revision) => r := bookings.CancelByAdmin(id, revision);
      case CancelAsCustomer(id, seen, resident) => r := bookings.CancelByCustomer(id, seen, resident);
      case ChangeBooking(listing, id, kind, change, seen, terms, ahead) =>
        r := bookings.Change(listing, id, kind, change, seen, terms, ahead);
      case Block(listing, input) => r := bookings.BlockRoom(listing, input);
      case AttachPayment(id, pid, amount, reported) => r := payments.AttachProviderPayment(id, pid, amount, reported);
      case ReceiveResult(payment, succeeded, reported) => r := payments.ReceiveResult(payment, succeeded, reported);
      case FlagPayment(id) => r := payments.FlagUncertain(id);
      case ExpireHold(id) => r := payments.Expire(id);
      case TickPolicy(id, policy) => r := payments.TickPolicy(id, policy);
      case Invoiced(id, invoice) => r := payments.IssueInvoice(id, invoice);
      case AdjustHoursBy(resource, revision, debit, amount, booking) =>
        r := hours.Adjust(resource, revision, debit, amount, booking);
      case EnsureHours(resource) =>
        var account := hours.Ensure(resource);
        r := if account.Ok? then Ok(()) else Err(account.error);
    }

    /** One transaction: the fence, then the body; an error undoes everything that was written. */
    method Command(c: Command) returns (r: Result<()>)
      requires Valid()
      modifies store
      ensures store.State() == Step(old(store.State()), Run(c))
      ensures r == match Execute(old(store.State()), c) case Ok(_) => Ok(()) case Err(e) => Err(e)
    {
      hide Body;
      var saved := store.State();
      r := store.AssertWritable();
      if r.Err? {
        return;
      }
      r := Dispatch(c);
      if r.Err? {
        store.Restore(saved);
      }
    }

    /** A command under a key: prepared, answered from its receipt, or run and, when it succeeds, recorded. */
    method Handle(request: Requests.Request) returns (r: Result<()>)
      requires Valid()
      modifies this`receipts, store
      ensures (Requests.Front(store.State(), receipts), r)
           == Requests.Handle(Requests.Front(old(store.State()), old(receipts)), request)
    {
      hide Execute, Requests.Preliminary, Requests.Early;
      r := Requests.Preliminary(store.State(), request.command);
      if r.Err? {
        return;
      }
      if request.key in receipts {
        return if receipts[request.key] == request.form then Ok(()) else Err(IdempotencyConflict);
      }
      r := Requests.Early(store.State(), request.command);
      if r.Err? {
        return;
      }
      r := Command(request.command);
      if r.Ok? {
        receipts := receipts[request.key := request.form];
      }
    }
  }
}
