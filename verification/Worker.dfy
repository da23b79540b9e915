/**
 The periodic worker: what its commands do to holds, payment policies and accounts, and which of them its
 own queries select.
 */
module Worker {
  import opened Calendar
  import opened Results
  import opened Records
  import opened Hours
  import opened Bookings
  import opened Payments
  import opened Machine
  import opened Invariants
  import opened Text
  import Commands
  import Fingerprint

  // ---------------------------------------------------------------- holds

  predicate Lapsed(b: Booking, now: int) {
    b.status == Hold && b.expiresAt.Some? && b.expiresAt.value <= now
  }

  function LapsedHolds(db: Db): set<nat> {
    set id | id in db.bookings && Lapsed(db.bookings[id], db.now)
  }

  /** The commands of the periodic worker. */
  predicate Periodic(c: Command) {
    c.ExpireHold? || c.ReceiveResult? || c.TickPolicy? || c.EnsureHours?
  }

  /** What a periodic command writes is not a lapsed hold, unless it was one already. */
  lemma TargetNotLapsed(db: Db, c: Command, id: nat)
    requires Periodic(c) && Body(db, c).Ok? && id == Target(db, c) && db.nextBooking !in db.bookings
    requires id in Body(db, c).value.bookings && Lapsed(Body(db, c).value.bookings[id], db.now)
    ensures !c.ExpireHold? && id in db.bookings && Lapsed(db.bookings[id], db.now)
  {
    hide Conflict, PaidAmount, Refundable, LockDays, DebitLate;
    match c
    case ReceiveResult(p, succeeded, reported) =>
      if succeeded {
        SuccessEndsHold(db, p, db.payments[p].booking, db.bookings[db.payments[p].booking]);
      } else {
        hide Refund, ChangeHours;
      }
    case ExpireHold(_) => hide Refund, ChangeHours;
    case TickPolicy(_, _) =>
    case EnsureHours(resource) => hide Ensure; HoursKeepRooms(db, resource, 0, None);
  }

  lemma SuccessEndsHold(db: Db, p: nat, id: nat, b: Booking)
    requires p < |db.payments| && PaymentSucceeded(db, p, id, b).Ok?
    ensures id in PaymentSucceeded(db, p, id, b).value.bookings
    ensures PaymentSucceeded(db, p, id, b).value.bookings[id].status != Hold
  {
    hide Conflict, PaidAmount, Refundable, LockDays, DebitLate;
  }

  /** A periodic command leaves no new lapsed hold, and expiring one ends it. */
  lemma PeriodicLapses(db: Db, c: Command)
    requires Inv(db) && Periodic(c) && Execute(db, c).Ok?
    ensures LapsedHolds(Step(db, Run(c))) <= LapsedHolds(db) - (if c.ExpireHold? then {c.id} else {})
  {
    hide Inv, Body, Lapsed;
    var start := Fenced(db);
    EnvironmentInv(db, start);
    FreshId(start);
    BodyGuarded(start, c);
    BodyKeepsEnvironment(start, c);
    var after := Body(start, c).value;
    forall id | id in LapsedHolds(after) ensures id in LapsedHolds(db) && (c.ExpireHold? ==> id != c.id) {
      if id == Target(start, c) {
        TargetNotLapsed(start, c, id);
      } else {
        OthersUntouched(start, after, Target(start, c), id);
      }
    }
  }

  /** The record of a provider's payment. */
  function PaymentOf(payments: seq<Payment>, pid: nat): (k: Option<nat>)
    ensures k.Some? ==> k.value < |payments| && payments[k.value].provider == Some(pid)
  {
    if payments == [] then None
    else if payments[|payments| - 1].provider == Some(pid) then Some(|payments| - 1)
    else PaymentOf(payments[..|payments| - 1], pid)
  }

  // ---------------------------------------------------------------- payment policies

  /** The bookings whose payment is followed. */
  predicate Tracked(b: Booking) {
    b.status !in {Cancelled, Blocked} && b.payment != Paid && b.policy.kind != NoPolicy
  }

  function TrackedBookings(db: Db): set<nat> {
    set id | id in db.bookings && Tracked(db.bookings[id])
  }

  predicate PolicyCurrent(b: Booking, now: int) {
    b.policy.state == Lateness(b.policy, now)
  }

  /** The clock, the write switch and the profiles stay. */
  predicate SameSurroundings(a: Db, b: Db) {
    a.now == b.now && a.writable == b.writable && a.profiles == b.profiles
  }

  lemma PeriodicSurroundings(db: Db, c: Command)
    ensures SameSurroundings(db, Step(db, Run(c)))
  {
    hide Body;
    if Execute(db, c).Ok? {
      BodyKeepsEnvironment(Fenced(db), c);
    }
  }

  /** Following one policy makes it current and leaves every other booking as it is. */
  lemma FollowOne(db: Db, id: nat)
    requires id in TrackedBookings(db) && db.writable
    ensures var after := Step(db, Run(TickPolicy(id, db.bookings[id].policy)));
      && TrackedBookings(after) == TrackedBookings(db) && after.bookings.Keys == db.bookings.Keys
      && (forall j :: j in db.bookings && j != id ==> after.bookings[j] == db.bookings[j])
      && PolicyCurrent(after.bookings[id], db.now)
  {
    var b := db.bookings[id];
    var after := Step(db, Run(TickPolicy(id, b.policy)));
    FollowBooking(Fenced(db), id);
    hide Execute;
    assert after.bookings.Keys == db.bookings.Keys;
  }

  lemma FollowBooking(db: Db, id: nat)
    requires id in db.bookings && Tracked(db.bookings[id])
    ensures PolicyTick(db, id, db.bookings[id].policy).Ok?
    ensures var after := PolicyTick(db, id, db.bookings[id].policy).value;
      && id in after.bookings && after.bookings == db.bookings[id := after.bookings[id]]
      && Tracked(after.bookings[id]) && PolicyCurrent(after.bookings[id], db.now)
  {
  }

  // ---------------------------------------------------------------- accounts

  /** The account of an active owner needs no renewal and follows the quota and the reset day. */
  predicate Current(a: Account, p: Profile, today: Date) {
    Before(today, a.next) && a.quota == QuotaOf(p) && a.resetDay == ResetDayOf(p)
  }

  /** The worker's own test for having nothing to do; it looks at the policy's quota only. */
  predicate Skips(a: Account, p: Profile, today: Date) {
    && Before(today, a.next) && a.quota == p.quota
    && a.resetDay == if p.resetDay == 0 then 1 else p.resetDay
  }

  predicate ActiveOwner(db: Db, r: nat) {
    r in db.profiles && db.profiles[r].active && db.profiles[r].ownsHours
  }

  /** `ensure` has nothing to do exactly when the account is current. */
  lemma CurrentIff(db: Db, r: nat)
    requires r in db.accounts && ActiveOwner(db, r) && IsDate(db.accounts[r].next)
    ensures Ensure(db, r) == Ok(db) <==> Current(db.accounts[r], db.profiles[r], Today(db.now))
  {
    hide MonthlyPeriod, Spent, IsDate;
    BeforeOrAfter(Today(db.now), db.accounts[r].next);
  }

  lemma BeforeOrAfter(a: Date, b: Date)
    ensures IsDate(a) && IsDate(b) ==> (Before(a, b) <==> !AtMost(b, a))
  {
  }

  /** Bringing one account up to date makes it current and touches no other account and no booking. */
  lemma RenewOne(db: Db, r: nat)
    requires LedgerInv(db) && db.writable && r in db.accounts && ActiveOwner(db, r)
    ensures var after := Step(db, Run(EnsureHours(r)));
      && after.bookings == db.bookings && after.accounts == db.accounts[r := after.accounts[r]]
      && Current(after.accounts[r], db.profiles[r], Today(db.now))
  {
    hide Spent, EnsureAccount, LedgerInv, Today;
    var a := db.accounts[r];
    AccountDated(db, r);
    EnsuredCurrent(a, db.profiles[r], Today(db.now), SpentSince(Fenced(db), r));
  }

  lemma AccountDated(db: Db, r: nat)
    requires LedgerInv(db) && r in db.accounts
    ensures IsDate(db.accounts[r].next) && 1 <= db.accounts[r].resetDay <= 31 && db.accounts[r].quota >= 0
  {
    hide Chained, LastAfter, IsDate;
    assert AccountOk(db.accounts[r], Today(db.now));
  }

  lemma EnsuredCurrent(a: Account, p: Profile, today: Date, spent: int)
    requires IsDate(today) && today.year >= 1970 && IsDate(a.next) && p.active && p.ownsHours
    ensures var e := EnsureAccount(Some(a), p, today, spent);
      Current(e.account, p, today) && (e.row.None? ==> e.account == a)
  {
    RegularPeriod(today, ResetDayOf(p));
    BeforeOrAfter(today, a.next);
    AfterUntil(today, MonthlyPeriod(today, ResetDayOf(p)).next);
    BeforeOrAfter(today, MonthlyPeriod(today, ResetDayOf(p)).next);
    RegularTiles(today, ResetDayOf(p));
  }

  /**
   An account the worker skips is current if and only if no quota from office services stands against the
   policy's: the worker does not see that quota, and leaves the account to the next operation on it.
   */
  lemma SkippedCurrentIff(a: Account, p: Profile, today: Date)
    requires p.active && p.ownsHours && Skips(a, p, today) && a.quota >= 0 && 1 <= a.resetDay <= 31
    ensures Current(a, p, today) <==> p.manual.None? || Max(0, p.manual.value) == a.quota
  {
    hide Before;
  }

  /**
   A current account is skipped if and only if the policy's own quota is what it has, and the policy's reset day
   is one of a month, or none.
   */
  lemma CurrentSkippedIff(a: Account, p: Profile, today: Date)
    requires Current(a, p, today)
    ensures Skips(a, p, today) <==> p.quota == a.quota && 0 <= p.resetDay <= 31
  {
    hide Before;
  }

  /** The policy gives ten hours and the offices now fifteen: the worker skips the account, which is not current. */
  lemma ManualQuotaOverlooked()
    ensures var a := Account(600, 600, 1, Date(1970, 1, 1), Date(1970, 1, 31), Date(1970, 2, 1), 1);
      var p, today := Profile(true, true, 600, Some(900), 1, true), Date(1970, 1, 15);
      Skips(a, p, today) && !Current(a, p, today)
  {
  }

  /** The key of the day's renewal of an account at its present revision. */
  function RenewKey(resource: nat, revision: int, today: Date): string {
    "renew:" + (Decimal(resource) + ":" + (Decimal(Max(0, revision) as nat) + ":" + DateText(today)))
  }

  function DateText(d: Date): string {
    Decimal(Max(0, d.year) as nat) + "-" + Decimal(Max(0, d.month) as nat) + "-" + Decimal(Max(0, d.day) as nat)
  }

  const RENEW_FORM: Fingerprint.Json := Commands.CommandForm("hours.renew", Fingerprint.Object([]))

  /** Different accounts never share a renewal key. */
  lemma RenewKeyNames(r: nat, s: nat, n: int, m: int, today: Date, day: Date)
    requires RenewKey(r, n, today) == RenewKey(s, m, day)
    ensures r == s
  {
    var x, y := Decimal(Max(0, n) as nat) + ":" + DateText(today), Decimal(Max(0, m) as nat) + ":" + DateText(day);
    var left, right := Decimal(r) + ":" + x, Decimal(s) + ":" + y;
    hide Decimal, DateText;
    assert RenewKey(r, n, today)[6..] == left && RenewKey(s, m, day)[6..] == right;
    FirstNumber(r, s, x, y);
  }

  /** The key under which a final result of a provider's payment is applied, by a poll or after a webhook. */
  function ResultKey(pid: nat, succeeded: bool): string {
    "payment-result:" + (Decimal(pid) + (if succeeded then ":succeeded" else ":canceled"))
  }

  function ResultForm(pid: nat, succeeded: bool): Fingerprint.Json {
    Commands.CommandForm("payment.result", Fingerprint.Object(
      [Fingerprint.Field("paymentId", Fingerprint.Text(Decimal(pid))),
       Fingerprint.Field("status", Fingerprint.Text(if succeeded then "succeeded" else "canceled"))]))
  }

  /** No result and no renewal share a key. */
  lemma ResultNotRenewal(pid: nat, succeeded: bool, r: nat, n: int, day: Date)
    ensures ResultKey(pid, succeeded) != RenewKey(r, n, day)
  {
    assert ResultKey(pid, succeeded)[0] == 'p' && RenewKey(r, n, day)[0] == 'r';
  }

  /**
   After a pass of the worker: an account is current, or the worker's test does not see that it is not, or
   the renewal of the day was answered from an earlier receipt because nothing was to be renewed then.
   */
  predicate AccountSettled(db: Db, receipts: map<string, Fingerprint.Json>, r: nat)
    requires r in db.accounts
  {
    var today := Today(db.now);
    ActiveOwner(db, r) ==>
      || Current(db.accounts[r], db.profiles[r], today)
      || Skips(db.accounts[r], db.profiles[r], today)
      || RenewKey(r, db.accounts[r].revision, today) in receipts
  }
}
