/** The documents of the operations store, and the whole store as one value. */
module Records {
  import opened Calendar
  import opened Results
  import opened Segments
  import opened Catalog

  datatype Status =
    | Draft
    | Hold
    | GuestRequest
    | AwaitingPayment
    | AwaitingConfirmation
    | Confirmed
    | PaidUp
    | Cancelled
    | Blocked
    | AwaitingResolution

  datatype PaymentStatus = Unpaid | PostpayOpen | PostpayWarning | PostpayOverdue | Paid

  datatype PolicyKind = NoPolicy | InvoicePolicy | PostpayPolicy

  datatype Overdueness = NotTracked | Active | Warning | Overdue

  datatype Policy = Policy(kind: PolicyKind, warnAt: int, dueAt: int, state: Overdueness)

  /**
   `expiresAt` is a moment in milliseconds, `resource` owns the hours account the booking draws on, and
   `providerPayment` is the provider's payment that is polled for it.
   */
  datatype Booking = Booking(
    quote: Quote, status: Status, payment: PaymentStatus, payBy: Method, expiresAt: Option<int>,
    resource: Option<nat>, profile: Option<nat>, hoursDebited: int, attention: bool,
    policy: Policy, invoice: Option<nat>, revision: int, providerPayment: Option<nat>)

  /** `manual` is a monthly quota from the services of the profile's offices; it goes before the policy's `quota`. */
  datatype Profile = Profile(
    active: bool, ownsHours: bool, quota: int, manual: Option<int>, resetDay: int, complete: bool)

  datatype Account = Account(
    balance: int, quota: int, resetDay: int, accrual: Date, expires: Date, next: Date, revision: int)

  datatype Movement = Debit | Credit | Renewal | PolicyChange

  datatype LedgerRow = LedgerRow(
    account: nat, booking: Option<nat>, kind: Movement, amount: int, before: int, after: int, at: nat)

  datatype PaymentState = Pending | PaidIn | Void

  /** `provider` is the provider's payment; a payment taken by hand has none. */
  datatype Payment = Payment(booking: nat, provider: Option<nat>, amount: int, state: PaymentState)

  type RoomDays = map<(int, Date), nat>

  /**
   The store. `fence` is the write counter of the ownership document, `nextBooking` the booking
   counter; `now` is the clock that every moment in the documents is read from.
   */
  datatype Db = Db(
    now: nat, writable: bool, fence: nat, bookings: map<nat, Booking>, nextBooking: nat,
    roomDays: RoomDays, payments: seq<Payment>, accounts: map<nat, Account>, ledger: seq<LedgerRow>,
    profiles: map<nat, Profile>, prepay: set<nat>)

  /** Moments are stored with a resolution of one second. */
  function Second(moment: int): int {
    moment / 1000 * 1000
  }

  // ---------------------------------------------------------------- payments of a booking

  function PaidAmount(payments: seq<Payment>, id: nat): int {
    if payments == [] then 0
    else PaidAmount(payments[..|payments| - 1], id) + PaidIntoBooking(payments[|payments| - 1], id)
  }

  function PaidIntoBooking(p: Payment, id: nat): int {
    if p.booking == id && p.state.PaidIn? then p.amount else 0
  }

  lemma PaidAppend(payments: seq<Payment>, p: Payment, id: nat)
    ensures PaidAmount(payments + [p], id) == PaidAmount(payments, id) + PaidIntoBooking(p, id)
  {
    assert (payments + [p])[..|payments|] == payments;
  }

  lemma {:induction false} PaidUpdate(payments: seq<Payment>, k: nat, p: Payment, id: nat)
    requires k < |payments|
    ensures PaidAmount(payments[k := p], id)
         == PaidAmount(payments, id) - PaidIntoBooking(payments[k], id) + PaidIntoBooking(p, id)
    decreases |payments|
  {
    var updated := payments[k := p];
    var n := |payments| - 1;
    if k == n {
      assert updated[..n] == payments[..n];
    } else {
      PaidUpdate(payments[..n], k, p, id);
      assert updated[..n] == payments[..n][k := p];
    }
  }

  // ---------------------------------------------------------------- availability

  predicate BlockingStatus(s: Status) {
    s in {Hold, AwaitingPayment, AwaitingConfirmation, Confirmed, PaidUp, Blocked}
  }

  predicate Blocks(b: Booking, now: int) {
    if b.status in {Cancelled, Draft, GuestRequest} then false
    else if b.expiresAt.Some? && b.expiresAt.value <= now then false
    else BlockingStatus(b.status)
  }

  /** The query and filter behind every availability check. */
  predicate Conflict(bookings: map<nat, Booking>, now: int, room: int, segments: seq<Segment>, except: Option<nat>) {
    exists id | id in bookings ::
      && except != Some(id) && bookings[id].quote.room == room
      && Blocks(bookings[id], now) && AnyOverlap(bookings[id].quote.segments, segments)
  }

  function Revision(days: RoomDays, room: int, day: Date): nat {
    if (room, day) in days then days[(room, day)] else 0
  }

  function Touched(days: RoomDays, room: int, dates: set<Date>): (r: RoomDays)
    ensures forall k, d :: Revision(r, k, d) == Revision(days, k, d) + (if k == room && d in dates then 1 else 0)
  {
    map p: (int, Date) | p in days.Keys + (set d | d in dates :: (room, d)) ::
      Revision(days, p.0, p.1) + (if p.0 == room && p.1 in dates then 1 else 0)
  }
}
