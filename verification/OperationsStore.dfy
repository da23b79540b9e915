/** The store as its methods update it, document by document, and the hours account on it. */
module OperationsStore {
  import opened Calendar
  import opened Results
  import opened Records
  import opened Hours
  import opened Bookings

  /** A method has done what a function on the whole store says, or fails with the same error. */
  predicate Did(spec: Result<Db>, r: Result<()>, after: Db) {
    match spec
    case Ok(db) => r == Ok(()) && after == db
    case Err(e) => r == Err(e)
  }

  class Store {
    var now: nat
    var writable: bool
    var fence: nat
    var bookings: map<nat, Booking>
    var nextBooking: nat
    var roomDays: RoomDays
    var payments: seq<Payment>
    var accounts: map<nat, Account>
    var ledger: seq<LedgerRow>
    var profiles: map<nat, Profile>
    var prepay: set<nat>

    function State(): Db
      reads this
    {
      Db(now, writable, fence, bookings, nextBooking, roomDays, payments, accounts, ledger, profiles, prepay)
    }

    constructor (moment: nat)
      ensures State() == Db(moment, true, 0, map[], 1, map[], [], map[], [], map[], {})
    {
      now, writable, fence, nextBooking := moment, true, 0, 1;
      bookings, roomDays, accounts, profiles := map[], map[], map[], map[];
      payments, ledger, prepay := [], [], {};
    }

    /** Counts up the fence, so that pausing the store conflicts with every write that is under way. */
    method AssertWritable() returns (r: Result<()>)
      modifies this`fence
      ensures r == if old(writable) then Ok(()) else Err(Maintenance)
      ensures fence == if old(writable) then old(fence) + 1 else old(fence)
    {
      if !writable {
        return Err(Maintenance);
      }
      fence := fence + 1;
      return Ok(());
    }

    method NextBookingId() returns (id: nat)
      modifies this`nextBooking
      ensures id == old(nextBooking) && nextBooking == id + 1
    {
      id := nextBooking;
      nextBooking := nextBooking + 1;
    }

    method PutBooking(id: nat, b: Booking)
      modifies this`bookings
      ensures State() == Bookings.PutBooking(old(State()), id, b)
    {
      bookings := bookings[id := b];
    }

    /** What an aborted transaction has written is undone. */
    method Restore(saved: Db)
      modifies this
      ensures State() == saved
    {
      now, writable, fence, nextBooking := saved.now, saved.writable, saved.fence, saved.nextBooking;
      bookings, roomDays, payments := saved.bookings, saved.roomDays, saved.payments;
      accounts, ledger, profiles, prepay := saved.accounts, saved.ledger, saved.profiles, saved.prepay;
    }
  }

  class HoursService {
    const store: Store

    constructor (store: Store)
      ensures this.store == store
    {
      this.store := store;
    }

    method AppendRow(resource: nat, a: Account, kind: Movement, amount: int, before: int, booking: Option<nat>)
      modifies store`ledger
      ensures store.ledger == old(store.ledger)
                              + [LedgerRow(resource, booking, kind, amount, before, a.balance, store.now)]
    {
      store.ledger := store.ledger + [LedgerRow(resource, booking, kind, amount, before, a.balance, store.now)];
    }

    /** Opens the account, renews it when its day has come, or follows a change of the monthly quota. */
    method Ensure(resource: nat) returns (r: Result<Account>)
      modifies store
      ensures Did(Hours.Ensure(old(store.State()), resource), if r.Ok? then Ok(()) else Err(r.error), store.State())
      ensures r.Ok? ==> resource in store.accounts && store.accounts[resource] == r.value
    {
      hide MonthlyPeriod, Today, Spent, AtMost;
      if resource !in store.profiles {
        return Err(ProfileUnavailable);
      }
      var profile, today := store.profiles[resource], Today(store.now);
      var quota, resetDay := QuotaOf(profile), ResetDayOf(profile);
      var period := MonthlyPeriod(today, resetDay);
      var account: Account;
      if resource !in store.accounts {
        account := Account(quota, quota, resetDay, period.start, period.end, period.next, 1);
        store.accounts := store.accounts[resource := account];
        AppendRow(resource, account, Renewal, quota, 0, None);
      } else {
        account := store.accounts[resource];
        if profile.ownsHours && profile.active && AtMost(account.next, today) {
          var before := account.balance;
          account := Account(quota, quota, resetDay, period.start, period.end, period.next, account.revision + 1);
          store.accounts := store.accounts[resource := account];
          AppendRow(resource, account, Renewal, quota, before, None);
        }
      }
      if profile.ownsHours && profile.active && (account.quota != quota || account.resetDay != resetDay) {
        var before, since := account.balance, account.accrual;
        var spent := Max(0, Spent(store.ledger, resource, since, store.now));
        var balance := if account.quota != quota then Max(0, quota - spent) else before;
        account := Account(balance, quota, resetDay, since, period.end, period.next, account.revision + 1);
        store.accounts := store.accounts[resource := account];
        AppendRow(resource, account, PolicyChange, Abs(balance - before), before, None);
      }
      return Ok(account);
    }

    /** Debits (`delta < 0`) or credits the account, once it is up to date. */
    method Change(resource: nat, delta: int, booking: Option<nat>) returns (r: Result<()>)
      modifies store
      ensures Did(ChangeHours(old(store.State()), resource, delta, booking), r, store.State())
    {
      hide Hours.Ensure, Available, Today;
      var ensured := Ensure(resource);
      if ensured.Err? {
        return Err(ensured.error);
      }
      var account := ensured.value;
      var before := account.balance;
      if delta < 0 && Available(account, Today(store.now)) < -delta {
        return Err(InsufficientBalance);
      }
      if before + delta > MAX_SAFE || before + delta < 0 {
        return Err(InvalidBalance);
      }
      account := account.(balance := before + delta, revision := account.revision + 1);
      store.accounts := store.accounts[resource := account];
      AppendRow(resource, account, if delta < 0 then Debit else Credit, Abs(delta), before, booking);
      return Ok(());
    }

    /** The debits of a booking less its credits, read from the ledger row by row. */
    method RefundableHours(id: nat, b: Booking) returns (n: int)
      ensures n == Refundable(store.State(), id, b)
    {
      if b.resource.None? {
        return 0;
      }
      n := 0;
      var k := 0;
      assert store.ledger[..0] == [];
      while k < |store.ledger|
        invariant 0 <= k <= |store.ledger|
        invariant n == Net(store.ledger[..k], id, b.resource.value)
      {
        assert store.ledger[..k + 1][..k] == store.ledger[..k];
        var row := store.ledger[k];
        if row.booking == Some(id) && row.account == b.resource.value {
          n := n + Signed(row);
        }
        k := k + 1;
      }
      assert store.ledger[..k] == store.ledger;
      n := Max(0, n);
    }

    method Refund(id: nat, b: Booking) returns (r: Result<()>)
      modifies store
      ensures Did(Hours.Refund(old(store.State()), id, b), r, store.State())
    {
      hide ChangeHours, Refundable;
      if b.resource.None? {
        return Ok(());
      }
      var amount := RefundableHours(id, b);
      if amount != 0 {
        r := Change(b.resource.value, amount, Some(id));
        return;
      }
      return Ok(());
    }

    /** A manual debit or credit, for a booking of the account or for none. */
    method Adjust(resource: nat, revision: int, debit: bool, amount: int, booking: Option<nat>) returns (r: Result<()>)
      modifies store
      ensures Did(AdjustManually(old(store.State()), resource, revision, debit, amount, booking), r, store.State())
    {
      hide Hours.Ensure, ChangeHours, Refundable;
      if amount < 1 {
        return Err(ValidationError);
      }
      var ensured := Ensure(resource);
      if ensured.Err? {
        return Err(ensured.error);
      }
      if ensured.value.revision != revision {
        return Err(RevisionConflict);
      }
      if booking.Some? {
        if booking.value !in store.bookings || store.bookings[booking.value].resource != Some(resource) {
          return Err(InvalidBooking);
        }
        var left := RefundableHours(booking.value, store.bookings[booking.value]);
        if !debit && left < amount {
          return Err(RefundExceedsDebit);
        }
      }
      r := Change(resource, if debit then -amount else amount, booking);
      if r.Ok? && booking.Some? && booking.value in store.bookings {
        var b := store.bookings[booking.value];
        var debited := RefundableHours(booking.value, b);
        store.PutBooking(booking.value, b.(hoursDebited := debited, revision := b.revision + 1));
      }
    }
  }
}
