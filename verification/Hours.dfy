/** The hours account: lazy monthly renewal, movements, and the ledger that records them. */
module Hours {
  import opened Calendar
  import opened Results
  import opened Records

  const MAX_SAFE := 9007199254740991

  // ---------------------------------------------------------------- reading an account

  function Available(a: Account, today: Date): (n: int)
    ensures n >= 0
  {
    if Before(today, a.accrual) || Before(a.expires, today) then 0 else Max(0, a.balance)
  }

  function QuotaOf(p: Profile): (n: int)
    ensures n >= 0
  {
    if p.ownsHours then Max(0, Or(p.manual, p.quota)) else 0
  }

  function ResetDayOf(p: Profile): (n: int)
    ensures 1 <= n <= 31
  {
    Min(31, Max(1, p.resetDay))
  }

  // ---------------------------------------------------------------- the ledger

  /** What a row adds to the hours a booking has been debited for. */
  function Signed(row: LedgerRow): int {
    match row.kind
    case Debit => row.amount
    case Credit => -row.amount
    case _ => 0
  }

  /** Debits less credits of a booking on an account. */
  function Net(ledger: seq<LedgerRow>, booking: nat, account: nat): int {
    if ledger == [] then 0
    else
      var last := ledger[|ledger| - 1];
      Net(ledger[..|ledger| - 1], booking, account)
      + (if last.booking == Some(booking) && last.account == account then Signed(last) else 0)
  }

  /** The balance an account is left with by the rows so far; 0 before its first row. */
  function LastAfter(ledger: seq<LedgerRow>, account: nat): int {
    if ledger == [] then 0
    else if ledger[|ledger| - 1].account == account then ledger[|ledger| - 1].after
    else LastAfter(ledger[..|ledger| - 1], account)
  }

  /** Hours of bookings spent on an account in the current accrual period, as a policy change counts them. */
  function Spent(ledger: seq<LedgerRow>, account: nat, since: Date, now: nat): int {
    if ledger == [] then 0
    else
      var last := ledger[|ledger| - 1];
      Spent(ledger[..|ledger| - 1], account, since, now)
      + (if last.account == account && last.booking.Some?
            && AtMost(since, Today(last.at)) && Second(last.at) <= Second(now)
         then Signed(last) else 0)
  }

  // ---------------------------------------------------------------- renewal

  datatype Ensured = Ensured(account: Account, row: Option<Movement>, amount: int, before: int)

  /** What `ensure` makes of an account; `spent` is what a policy change has to keep subtracted. */
  function EnsureAccount(a: Option<Account>, p: Profile, today: Date, spent: int): Ensured
    requires IsDate(today) && today.year >= 0
  {
    var quota, resetDay := QuotaOf(p), ResetDayOf(p);
    var period := MonthlyPeriod(today, resetDay);
    if a.None? then
      Ensured(Account(quota, quota, resetDay, period.start, period.end, period.next, 1), Some(Renewal), quota, 0)
    else if p.ownsHours && p.active && AtMost(a.value.next, today) then
      Ensured(Account(quota, quota, resetDay, period.start, period.end, period.next, a.value.revision + 1),
              Some(Renewal), quota, a.value.balance)
    else if p.ownsHours && p.active && (a.value.quota != quota || a.value.resetDay != resetDay) then
      var balance := if a.value.quota != quota then Max(0, quota - Max(0, spent)) else a.value.balance;
      Ensured(Account(balance, quota, resetDay, a.value.accrual, period.end, period.next, a.value.revision + 1),
              Some(PolicyChange), Abs(balance - a.value.balance), a.value.balance)
    else Ensured(a.value, None, 0, a.value.balance)
  }

  function Abs(n: int): int {
    if n < 0 then -n else n
  }

  function AccountOf(db: Db, resource: nat): Option<Account> {
    if resource in db.accounts then Some(db.accounts[resource]) else None
  }

  function SpentSince(db: Db, resource: nat): int {
    if resource in db.accounts then Spent(db.ledger, resource, db.accounts[resource].accrual, db.now) else 0
  }

  function Ensure(db: Db, resource: nat): Result<Db> {
    if resource !in db.profiles then Err(ProfileUnavailable)
    else
      var e := EnsureAccount(AccountOf(db, resource), db.profiles[resource], Today(db.now), SpentSince(db, resource));
      if e.row.None? then Ok(db)
      else Ok(db.(accounts := db.accounts[resource := e.account],
                  ledger := db.ledger + [LedgerRow(resource, None, e.row.value, e.amount, e.before,
                                                   e.account.balance, db.now)]))
  }

  /** Debits (`delta < 0`) or credits an account that is up to date. */
  function Post(db: Db, resource: nat, delta: int, booking: Option<nat>): Result<Db> {
    if resource !in db.accounts then Err(ProfileUnavailable)
    else
      var a := db.accounts[resource];
      if delta < 0 && Available(a, Today(db.now)) < -delta then Err(InsufficientBalance)
      else if a.balance + delta > MAX_SAFE || a.balance + delta < 0 then Err(InvalidBalance)
      else Ok(db.(accounts := db.accounts[resource := Moved(a, delta)],
                  ledger := db.ledger + [MovementRow(a, resource, delta, booking, db.now)]))
  }

  function Moved(a: Account, delta: int): Account {
    a.(balance := a.balance + delta, revision := a.revision + 1)
  }

  function MovementRow(a: Account, resource: nat, delta: int, booking: Option<nat>, now: nat): LedgerRow {
    LedgerRow(resource, booking, if delta < 0 then Debit else Credit, Abs(delta), a.balance, a.balance + delta, now)
  }

  /** Brings the account up to date, then moves hours on behalf of a booking or of nobody. */
  function ChangeHours(db: Db, resource: nat, delta: int, booking: Option<nat>): Result<Db> {
    var ready :- Ensure(db, resource);
    Post(ready, resource, delta, booking)
  }

  /** The hours of a booking that can still be given back. */
  function Refundable(db: Db, id: nat, b: Booking): (n: int)
    ensures n >= 0
  {
    if b.resource.None? then 0 else Max(0, Net(db.ledger, id, b.resource.value))
  }

  function Refund(db: Db, id: nat, b: Booking): Result<Db> {
    if b.resource.None? || Refundable(db, id, b) == 0 then Ok(db)
    else ChangeHours(db, b.resource.value, Refundable(db, id, b), Some(id))
  }

  // ---------------------------------------------------------------- invariants

  /** A row follows from the balance before it. */
  predicate RowOk(row: LedgerRow) {
    && row.amount >= 0 && row.before >= 0 && row.after >= 0
    && match row.kind
       case Debit => row.after == row.before - row.amount
       case Credit => row.after == row.before + row.amount
       case Renewal => row.after == row.amount && row.booking.None?
       case PolicyChange => Abs(row.after - row.before) == row.amount && row.booking.None?
  }

  /** Every row starts from the balance the account's previous row left. */
  predicate Chained(ledger: seq<LedgerRow>) {
    forall i :: 0 <= i < |ledger| ==> RowOk(ledger[i]) && ledger[i].before == LastAfter(ledger[..i], ledger[i].account)
  }

  /** Hours have been credited to the account since its last renewal. */
  predicate CreditedSince(ledger: seq<LedgerRow>, account: nat) {
    ledger != []
    && var last := ledger[|ledger| - 1];
       if last.account == account && last.kind in {Credit, Renewal} then last.kind == Credit
       else CreditedSince(ledger[..|ledger| - 1], account)
  }

  /** Only a credit lifts a balance above the quota. */
  predicate WithinQuota(ledger: seq<LedgerRow>, account: nat, a: Account) {
    CreditedSince(ledger, account) || a.balance <= a.quota
  }

  predicate AccountOk(a: Account, today: Date) {
    && a.balance >= 0 && a.quota >= 0 && 1 <= a.resetDay <= 31
    && IsDate(a.accrual) && IsDate(a.expires) && IsDate(a.next)
    && AtMost(a.accrual, today) && NextDay(a.expires) == a.next
  }

  ghost predicate LedgerInv(db: Db) {
    && Chained(db.ledger)
    && (forall r :: r in db.accounts ==>
          AccountOk(db.accounts[r], Today(db.now)) && db.accounts[r].balance == LastAfter(db.ledger, r))
    && (forall r :: r !in db.accounts ==> LastAfter(db.ledger, r) == 0)
    && (forall r :: r in db.accounts ==> WithinQuota(db.ledger, r, db.accounts[r]))
  }

  lemma NetAppend(ledger: seq<LedgerRow>, row: LedgerRow, booking: nat, account: nat)
    ensures Net(ledger + [row], booking, account)
         == Net(ledger, booking, account)
            + (if row.booking == Some(booking) && row.account == account then Signed(row) else 0)
  {
    assert (ledger + [row])[..|ledger|] == ledger;
  }

  lemma LastAfterAppend(ledger: seq<LedgerRow>, row: LedgerRow, account: nat)
    ensures LastAfter(ledger + [row], account) == if row.account == account then row.after else LastAfter(ledger, account)
  {
    assert (ledger + [row])[..|ledger|] == ledger;
  }

  lemma CreditedAppend(ledger: seq<LedgerRow>, row: LedgerRow, account: nat)
    ensures CreditedSince(ledger + [row], account)
         == if row.account == account && row.kind in {Credit, Renewal} then row.kind == Credit
            else CreditedSince(ledger, account)
  {
    assert (ledger + [row])[..|ledger|] == ledger;
  }

  lemma ChainAppend(ledger: seq<LedgerRow>, row: LedgerRow)
    requires Chained(ledger) && RowOk(row) && row.before == LastAfter(ledger, row.account)
    ensures Chained(ledger + [row])
  {
    var longer := ledger + [row];
    forall i | 0 <= i < |longer| ensures RowOk(longer[i]) && longer[i].before == LastAfter(longer[..i], longer[i].account) {
      if i < |ledger| {
        assert longer[..i] == ledger[..i];
      } else {
        assert longer[..i] == ledger;
      }
    }
  }

  /** A row appended to the ledger together with the balance it leaves keeps the ledger chained to the accounts. */
  lemma PostRow(db: Db, resource: nat, a: Account, row: LedgerRow)
    requires LedgerInv(db) && row.account == resource && RowOk(row)
    requires row.before == LastAfter(db.ledger, resource) && row.after == a.balance
    requires AccountOk(a, Today(db.now)) && LiftedByCredit(db, resource, a, row.kind)
    ensures LedgerInv(db.(accounts := db.accounts[resource := a], ledger := db.ledger + [row]))
  {
    hide Chained, AccountOk, LastAfter, CreditedSince, Today;
    ChainAppend(db.ledger, row);
    var after := db.(accounts := db.accounts[resource := a], ledger := db.ledger + [row]);
    forall r: nat ensures LastAfter(after.ledger, r) == if resource == r then row.after else LastAfter(db.ledger, r) {
      LastAfterAppend(db.ledger, row, r);
    }
    forall r | r in after.accounts ensures WithinQuota(after.ledger, r, after.accounts[r]) {
      CreditedAppend(db.ledger, row, r);
    }
  }

  /** The account after a movement of some kind is above its quota only by that credit, or by an earlier one. */
  predicate LiftedByCredit(db: Db, resource: nat, a: Account, kind: Movement) {
    || kind == Credit || a.balance <= a.quota
    || (kind != Renewal && CreditedSince(db.ledger, resource))
  }

  /** What an `ensure` leaves behind is a well-formed account that is current today. */
  lemma EnsureAccountOk(a: Option<Account>, p: Profile, today: Date, spent: int)
    requires IsDate(today) && today.year >= 1970 && (a.Some? ==> AccountOk(a.value, today))
    ensures var e := EnsureAccount(a, p, today, spent);
      && AccountOk(e.account, today) && e.before == (if a.None? then 0 else a.value.balance)
      && (e.row.Some? ==> Before(today, e.account.next) && e.amount >= 0)
      && (e.row == Some(Renewal) ==> e.account.balance == e.amount)
      && (e.row == Some(PolicyChange) ==> Abs(e.account.balance - e.before) == e.amount)
      && (e.row.Some? ==> e.row.value in {Renewal, PolicyChange})
      && (e.row == Some(Renewal) ==> e.account.balance == e.account.quota)
      && (e.row == Some(PolicyChange) ==>
            || e.account.balance <= e.account.quota
            || (a.Some? && e.account.balance == a.value.balance && e.account.quota == a.value.quota))
      && (e.row.None? ==> a == Some(e.account))
  {
    RegularPeriod(today, ResetDayOf(p));
    hide MonthlyPeriod, NextDay;
  }

  /** The row that an `ensure` adds goes with the account it leaves. */
  lemma EnsuredRow(db: Db, resource: nat)
    requires LedgerInv(db) && resource in db.profiles
    ensures var e := EnsureAccount(AccountOf(db, resource), db.profiles[resource], Today(db.now), SpentSince(db, resource));
      e.row.Some? ==>
        var row := LedgerRow(resource, None, e.row.value, e.amount, e.before, e.account.balance, db.now);
        && RowOk(row) && row.before == LastAfter(db.ledger, resource)
        && AccountOk(e.account, Today(db.now)) && LiftedByCredit(db, resource, e.account, e.row.value)
  {
    hide EnsureAccount, Today, LedgerInv, SpentSince, LastAfter, CreditedSince;
    OldAccountOk(db, resource);
    AccountNonNegative(db, resource);
    AccountWithin(db, resource);
    EnsureAccountOk(AccountOf(db, resource), db.profiles[resource], Today(db.now), SpentSince(db, resource));
  }

  /** `Ensure` adds at most one row, which belongs to no booking. */
  lemma EnsureFacts(db: Db, resource: nat)
    requires LedgerInv(db) && Ensure(db, resource).Ok?
    ensures var d := Ensure(db, resource).value;
      && d == db.(accounts := d.accounts, ledger := d.ledger)
      && LedgerInv(d) && resource in d.accounts && d.profiles == db.profiles
      && (d.ledger == db.ledger
          || (|d.ledger| == |db.ledger| + 1 && d.ledger[..|db.ledger|] == db.ledger
              && d.ledger[|db.ledger|].booking.None? && d.ledger[|db.ledger|].account == resource))
      && forall id: nat, r: nat :: Net(d.ledger, id, r) == Net(db.ledger, id, r)
  {
    hide EnsureAccount, Today, LedgerInv, SpentSince, Net, LastAfter, AccountOk, RowOk, LiftedByCredit;
    EnsuredRow(db, resource);
    EnsureWithoutRow(AccountOf(db, resource), db.profiles[resource], Today(db.now), SpentSince(db, resource));
    var e := EnsureAccount(AccountOf(db, resource), db.profiles[resource], Today(db.now), SpentSince(db, resource));
    if e.row.Some? {
      var row := LedgerRow(resource, None, e.row.value, e.amount, e.before, e.account.balance, db.now);
      PostRow(db, resource, e.account, row);
      forall id: nat, r: nat ensures Net(db.ledger + [row], id, r) == Net(db.ledger, id, r) {
        NetAppend(db.ledger, row, id, r);
      }
    }
  }

  lemma BalanceOk(a: Account, today: Date)
    requires AccountOk(a, today)
    ensures a.balance >= 0
  {
  }

  lemma AccountWithin(db: Db, resource: nat)
    requires LedgerInv(db)
    ensures resource in db.accounts ==> WithinQuota(db.ledger, resource, db.accounts[resource])
  {
  }

  lemma AccountNonNegative(db: Db, resource: nat)
    requires LedgerInv(db)
    ensures LastAfter(db.ledger, resource) >= 0
    ensures resource in db.accounts ==> db.accounts[resource].balance == LastAfter(db.ledger, resource)
    ensures resource !in db.accounts ==> LastAfter(db.ledger, resource) == 0
  {
  }

  /** The rows of a booking, and nothing else, follow a movement made on its behalf. */
  ghost predicate Moves(db: Db, d: Db, resource: nat, delta: int, booking: Option<nat>) {
    && d == db.(accounts := d.accounts, ledger := d.ledger)
    && LedgerInv(d)
    && |db.ledger| < |d.ledger| && d.ledger[..|db.ledger|] == db.ledger
    && (forall i :: |db.ledger| <= i < |d.ledger| ==>
          d.ledger[i].account == resource && (d.ledger[i].booking.None? || d.ledger[i].booking == booking))
    && (forall id: nat, r: nat :: Net(d.ledger, id, r)
                     == Net(db.ledger, id, r) - (if booking == Some(id) && r == resource then delta else 0))
  }

  lemma PostFacts(db: Db, resource: nat, delta: int, booking: Option<nat>)
    requires LedgerInv(db) && Post(db, resource, delta, booking).Ok?
    ensures var d := Post(db, resource, delta, booking).value;
      && Moves(db, d, resource, delta, booking)
      && d.ledger == db.ledger + [MovementRow(db.accounts[resource], resource, delta, booking, db.now)]
  {
    hide Today, Chained, Net, LastAfter, AccountOk, Available, CreditedSince;
    var a := db.accounts[resource];
    var row := MovementRow(a, resource, delta, booking, db.now);
    WithBalance(a, Today(db.now), Moved(a, delta));
    BalanceOk(a, Today(db.now));
    PostRow(db, resource, Moved(a, delta), row);
    forall id: nat, r: nat
      ensures Net(db.ledger + [row], id, r)
           == Net(db.ledger, id, r) - (if booking == Some(id) && r == resource then delta else 0)
    {
      NetAppend(db.ledger, row, id, r);
    }
  }

  /** A movement is one row, leaves the ledger chained, and changes the hours of its own booking by exactly `delta`. */
  lemma ChangeHoursFacts(db: Db, resource: nat, delta: int, booking: Option<nat>)
    requires LedgerInv(db) && ChangeHours(db, resource, delta, booking).Ok?
    ensures var d := ChangeHours(db, resource, delta, booking).value;
      && Moves(db, d, resource, delta, booking)
      && var row := d.ledger[|d.ledger| - 1];
         && row.booking == booking && row.amount == Abs(delta) && row.kind == (if delta < 0 then Debit else Credit)
         && forall k :: |db.ledger| <= k < |d.ledger| - 1 ==> d.ledger[k].booking.None?
  {
    hide Ensure, Post, LedgerInv, Net;
    EnsureFacts(db, resource);
    var ready := Ensure(db, resource).value;
    PostFacts(ready, resource, delta, booking);
    var d := Post(ready, resource, delta, booking).value;
    assert d.ledger[..|db.ledger|] == ready.ledger[..|db.ledger|];
  }

  lemma WithBalance(a: Account, today: Date, changed: Account)
    requires AccountOk(a, today) && changed.balance >= 0
    requires changed == a.(balance := changed.balance, revision := changed.revision)
    ensures AccountOk(changed, today)
  {
  }

  // ---------------------------------------------------------------- theorems about renewal

  lemma NothingLeftToEnsure(a: Option<Account>, p: Profile, today: Date, spent: int, later: int)
    requires IsDate(today) && today.year >= 1970
    ensures var e := EnsureAccount(a, p, today, spent);
      EnsureAccount(Some(e.account), p, today, later) == Ensured(e.account, None, 0, e.account.balance)
  {
    RegularPeriod(today, ResetDayOf(p));
    hide MonthlyPeriod;
  }

  /** A second `ensure` at the same moment, for the same profile, changes nothing and adds no row. */
  lemma EnsureIdempotent(db: Db, resource: nat)
    requires Ensure(db, resource).Ok?
    ensures Ensure(Ensure(db, resource).value, resource) == Ensure(db, resource)
  {
    hide EnsureAccount, Today, SpentSince;
    var d := Ensure(db, resource).value;
    NothingLeftToEnsure(AccountOf(db, resource), db.profiles[resource], Today(db.now),
                        SpentSince(db, resource), SpentSince(d, resource));
    EnsureWithoutRow(AccountOf(db, resource), db.profiles[resource], Today(db.now), SpentSince(db, resource));
  }

  lemma EnsureWithoutRow(a: Option<Account>, p: Profile, today: Date, spent: int)
    requires IsDate(today) && today.year >= 1970
    ensures var e := EnsureAccount(a, p, today, spent);
      e.row.None? ==> a == Some(e.account)
  {
  }

  /** Once up to date, an active owner can spend the whole balance. */
  lemma WholeBalanceSpendable(db: Db, resource: nat)
    requires LedgerInv(db) && Ensure(db, resource).Ok?
    requires db.profiles[resource].active && db.profiles[resource].ownsHours
    ensures var d := Ensure(db, resource).value;
      resource in d.accounts
      && Available(d.accounts[resource], Today(d.now)) == d.accounts[resource].balance
  {
    hide Today, SpentSince, LedgerInv, EnsureAccount, AccountOk, Available;
    EnsureFacts(db, resource);
    var a, p, today := AccountOf(db, resource), db.profiles[resource], Today(db.now);
    OldAccountOk(db, resource);
    CurrentWhenEnsured(a, p, today, SpentSince(db, resource));
    EnsureWithoutRow(a, p, today, SpentSince(db, resource));
  }

  lemma OldAccountOk(db: Db, resource: nat)
    requires LedgerInv(db)
    ensures resource in db.accounts ==> AccountOk(db.accounts[resource], Today(db.now))
  {
  }

  lemma CurrentWhenEnsured(a: Option<Account>, p: Profile, today: Date, spent: int)
    requires IsDate(today) && today.year >= 1970 && (a.Some? ==> AccountOk(a.value, today))
    requires p.active && p.ownsHours
    ensures var account := EnsureAccount(a, p, today, spent).account;
      Available(account, today) == account.balance
  {
    EnsureAccountOk(a, p, today, spent);
    var account := EnsureAccount(a, p, today, spent).account;
    assert Before(today, account.next);
    hide EnsureAccount;
    AfterUntil(account.expires, today);
    AfterUntil(today, account.accrual);
  }

  predicate SameButRevision(a: Account, b: Account) {
    a == b.(revision := a.revision)
  }

  /** The account after an `ensure` on every day from day number `first` to day number `last`. */
  function Daily(a: Account, p: Profile, first: nat, last: nat): Account
    requires first <= last
    decreases last - first
  {
    var before := if first == last then a else Daily(a, p, first, last - 1);
    EnsureAccount(Some(before), p, DateOfDay(last), 0).account
  }

  predicate PolicyKept(a: Account, p: Profile) {
    a.quota == QuotaOf(p) && a.resetDay == ResetDayOf(p)
  }

  /** Calling a day later gives what calling on both days gives. */
  lemma OneMoreDay(a: Account, p: Profile, day: nat)
    requires p.active && p.ownsHours && PolicyKept(a, p) && IsDate(a.next)
    ensures var once := EnsureAccount(Some(a), p, DateOfDay(day), 0).account;
      && PolicyKept(once, p) && IsDate(once.next)
      && SameButRevision(EnsureAccount(Some(once), p, DateOfDay(day + 1), 0).account,
                         EnsureAccount(Some(a), p, DateOfDay(day + 1), 0).account)
  {
    var resetDay := ResetDayOf(p);
    var yesterday, today := DateOfDay(day), DateOfDay(day + 1);
    RegularPeriod(yesterday, resetDay);
    RegularPeriod(today, resetDay);
    DateOfDayOrder(day, day + 1);
    AfterUntil(yesterday, a.next);
    AfterUntil(today, a.next);
    var next := MonthlyPeriod(yesterday, resetDay).next;
    AfterUntil(today, next);
    if AtMost(a.next, yesterday) && Before(today, next) {
      SamePeriod(yesterday, resetDay, today);
    }
    hide MonthlyPeriod, DateOfDay, IsDate;
  }

  /**
   Lazy renewal refines daily renewal: for an active owner with an unchanged policy and no movements,
   one `ensure` after any number of days leaves the balance and the dates that calling it on each of
   those days leaves.
   */
  lemma {:induction false} LazyIsDaily(a: Account, p: Profile, first: nat, last: nat)
    requires first <= last && p.active && p.ownsHours && PolicyKept(a, p) && IsDate(a.next)
    ensures SameButRevision(Daily(a, p, first, last), EnsureAccount(Some(a), p, DateOfDay(last), 0).account)
    decreases last - first
  {
    hide EnsureAccount, DateOfDay, PolicyKept;
    if first < last {
      LazyIsDaily(a, p, first, last - 1);
      OneMoreDay(a, p, last - 1);
      var once := EnsureAccount(Some(a), p, DateOfDay(last - 1), 0).account;
      RevisionIrrelevant(Daily(a, p, first, last - 1), once, p, DateOfDay(last));
    }
  }

  lemma RevisionIrrelevant(a: Account, b: Account, p: Profile, today: Date)
    requires SameButRevision(a, b) && IsDate(today) && today.year >= 0
    ensures SameButRevision(EnsureAccount(Some(a), p, today, 0).account, EnsureAccount(Some(b), p, today, 0).account)
  {
  }

  /** The balance an account had at its last renewal or policy change, plus credits and less debits since. */
  function SinceReset(ledger: seq<LedgerRow>, account: nat): int {
    if ledger == [] then 0
    else
      var last, before := ledger[|ledger| - 1], SinceReset(ledger[..|ledger| - 1], account);
      if last.account != account then before
      else match last.kind
           case Debit => before - last.amount
           case Credit => before + last.amount
           case _ => last.after
  }

  /** A chained ledger explains every balance: never negative, and reset value plus credits less debits. */
  lemma {:induction false} ChainExplainsBalance(ledger: seq<LedgerRow>, account: nat)
    requires Chained(ledger)
    ensures LastAfter(ledger, account) == SinceReset(ledger, account) >= 0
  {
    if ledger != [] {
      var n := |ledger| - 1;
      forall i | 0 <= i < n ensures ledger[..n][..i] == ledger[..i] && ledger[..n][i] == ledger[i] {
      }
      ChainExplainsBalance(ledger[..n], account);
      assert RowOk(ledger[n]) && ledger[n].before == LastAfter(ledger[..n], ledger[n].account);
    }
  }
}
