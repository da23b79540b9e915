/**
 What the monthly quota does to a balance: when an account is filled, what a changed quota leaves of it, and
 what is never taken into account.
 */
module Quotas {
  import opened Calendar
  import opened Results
  import opened Records
  import opened Hours
  import opened Machine
  import opened Invariants
  import opened Acceptance
  import opened Examples
  import opened Balances

  /** The offices' quota goes before the policy's, an owner's is never below zero, and nobody else has one. */
  lemma QuotaMeaning(p: Profile)
    ensures !p.ownsHours ==> QuotaOf(p) == 0
    ensures p.ownsHours && p.manual.None? ==> QuotaOf(p) == (if p.quota >= 0 then p.quota else 0)
    ensures p.ownsHours && p.manual.Some? ==> QuotaOf(p) == (if p.manual.value >= 0 then p.manual.value else 0)
    ensures 1 <= p.resetDay <= 31 ==> ResetDayOf(p) == p.resetDay
    ensures (p.resetDay < 1 ==> ResetDayOf(p) == 1) && (p.resetDay > 31 ==> ResetDayOf(p) == 31)
  {
  }

  // ---------------------------------------------------------------- filling an account

  /** An account is opened full, and that of an active owner is filled on its renewal day, whatever was left of it. */
  lemma FilledWhenDue(db: Db, r: nat)
    requires LedgerInv(db) && r in db.profiles
    requires r in db.accounts ==>
               db.profiles[r].active && db.profiles[r].ownsHours && AtMost(db.accounts[r].next, Today(db.now))
    ensures Ensure(db, r).Ok? && r in Ensure(db, r).value.accounts
    ensures var d := Ensure(db, r).value;
      var a, p, today := d.accounts[r], db.profiles[r], Today(db.now);
      && a.balance == a.quota == QuotaOf(p) && a.resetDay == ResetDayOf(p)
      && AtMost(a.accrual, today) && Before(today, a.next) && NextDay(a.expires) == a.next
      && a.revision == (if r in db.accounts then db.accounts[r].revision + 1 else 1)
      && d.accounts == db.accounts[r := a]
      && d.ledger == db.ledger + [LedgerRow(r, None, Renewal, a.balance,
                                            if r in db.accounts then db.accounts[r].balance else 0, a.balance, db.now)]
  {
    hide Today, SpentSince, LedgerInv, MonthlyPeriod, NextDay;
    RegularPeriod(Today(db.now), ResetDayOf(db.profiles[r]));
  }

  /** An account that is not an active owner's stays as it is, whatever the day and the quota. */
  lemma OthersUnfilled(db: Db, r: nat)
    requires r in db.profiles && r in db.accounts && !(db.profiles[r].active && db.profiles[r].ownsHours)
    ensures Ensure(db, r) == Ok(db)
  {
    hide Today, SpentSince, MonthlyPeriod;
  }

  /** Another reset day alone leaves the balance and the quota. */
  lemma ResetDayKeepsBalance(db: Db, r: nat)
    requires r in db.profiles && r in db.accounts && db.profiles[r].active && db.profiles[r].ownsHours
    requires !AtMost(db.accounts[r].next, Today(db.now)) && db.accounts[r].quota == QuotaOf(db.profiles[r])
    requires db.accounts[r].resetDay != ResetDayOf(db.profiles[r])
    ensures Ensure(db, r).Ok? && r in Ensure(db, r).value.accounts
    ensures var a := Ensure(db, r).value.accounts[r];
      && a.balance == db.accounts[r].balance && a.quota == db.accounts[r].quota && a.accrual == db.accounts[r].accrual
      && a.resetDay == ResetDayOf(db.profiles[r])
      && Period(a.accrual, a.expires, a.next)
         == MonthlyPeriod(Today(db.now), ResetDayOf(db.profiles[r])).(start := a.accrual)
  {
    hide Today, SpentSince, MonthlyPeriod;
  }

  // ---------------------------------------------------------------- another quota

  /**
   Row `k` is the last renewal of the account; what came after it are movements of this period, and the
   rows of bookings before it are of earlier days.
   */
  ghost predicate PeriodFrom(ledger: seq<LedgerRow>, r: nat, k: nat, since: Date, now: nat) {
    && k < |ledger| && ledger[k].account == r && ledger[k].kind == Renewal
    && (forall i :: k < i < |ledger| && ledger[i].account == r ==>
          ledger[i].kind in {Debit, Credit} && AtMost(since, Today(ledger[i].at)) && Second(ledger[i].at) <= Second(now))
    && (forall i :: 0 <= i < k && ledger[i].account == r && ledger[i].booking.Some? ==> Before(Today(ledger[i].at), since))
  }

  /** Credits less debits of the account that were made for no booking. */
  function ForNobody(rows: seq<LedgerRow>, r: nat): int {
    if rows == [] then 0
    else
      var last := rows[|rows| - 1];
      ForNobody(rows[..|rows| - 1], r)
      + if last.account != r || last.booking.Some? then 0
        else if last.kind == Credit then last.amount
        else if last.kind == Debit then -last.amount
        else 0
  }

  lemma {:induction false} EarlierNotSpent(ledger: seq<LedgerRow>, r: nat, since: Date, now: nat)
    requires forall i :: 0 <= i < |ledger| && ledger[i].account == r && ledger[i].booking.Some? ==>
               Before(Today(ledger[i].at), since)
    ensures Spent(ledger, r, since, now) == 0
  {
    if ledger != [] {
      EarlierNotSpent(ledger[..|ledger| - 1], r, since, now);
      NotBoth(Today(ledger[|ledger| - 1].at), since);
      hide Today;
    }
  }

  lemma NotBoth(a: Date, b: Date)
    ensures Before(a, b) ==> !AtMost(b, a)
  {
  }

  lemma {:induction false} BalanceExplained(ledger: seq<LedgerRow>, r: nat, k: nat, since: Date, now: nat)
    requires Chained(ledger) && PeriodFrom(ledger, r, k, since, now)
    ensures LastAfter(ledger, r) == ledger[k].after - Spent(ledger, r, since, now) + ForNobody(ledger[k + 1..], r)
    decreases |ledger|
  {
    hide Today, Chained;
    var n := |ledger| - 1;
    var rest := ledger[..n];
    LastRow(ledger);
    if n == k {
      forall i | 0 <= i < n && rest[i].account == r && rest[i].booking.Some? ensures Before(Today(rest[i].at), since) {
        assert rest[i] == ledger[i];
      }
      EarlierNotSpent(rest, r, since, now);
      assert ledger[k + 1..] == [];
    } else {
      assert PeriodFrom(rest, r, k, since, now) by {
        forall i | 0 <= i < n ensures rest[i] == ledger[i] {
        }
      }
      BalanceExplained(rest, r, k, since, now);
      assert ledger[k + 1..][..n - k - 1] == rest[k + 1..];
    }
  }

  lemma LastRow(ledger: seq<LedgerRow>)
    requires Chained(ledger) && ledger != []
    ensures var n := |ledger| - 1;
      Chained(ledger[..n]) && RowOk(ledger[n]) && ledger[n].before == LastAfter(ledger[..n], ledger[n].account)
  {
    var n := |ledger| - 1;
    forall i | 0 <= i < n ensures ledger[..n][i] == ledger[i] && ledger[..n][..i] == ledger[..i] {
    }
  }

  /**
   A quota that changes within a period leaves the new quota less what bookings have spent of the former one:
   that is what the balance is short of it, movements for nobody apart, which are forgotten.
   */
  lemma QuotaChanged(db: Db, r: nat, k: nat)
    requires LedgerInv(db) && r in db.profiles && r in db.accounts && db.profiles[r].active && db.profiles[r].ownsHours
    requires !AtMost(db.accounts[r].next, Today(db.now)) && db.accounts[r].quota != QuotaOf(db.profiles[r])
    requires PeriodFrom(db.ledger, r, k, db.accounts[r].accrual, db.now) && db.ledger[k].after == db.accounts[r].quota
    ensures Ensure(db, r).Ok? && r in Ensure(db, r).value.accounts
    ensures var before, after := db.accounts[r], Ensure(db, r).value.accounts[r];
      var spent := before.quota - (before.balance - ForNobody(db.ledger[k + 1..], r));
      && after.quota == QuotaOf(db.profiles[r]) && after.accrual == before.accrual
      && after.revision == before.revision + 1
      && after.balance == Max(0, after.quota - Max(0, spent))
      && Ensure(db, r).value.ledger
         == db.ledger + [LedgerRow(r, None, PolicyChange,
                                   if after.balance < before.balance then before.balance - after.balance
                                   else after.balance - before.balance,
                                   before.balance, after.balance, db.now)]
  {
    hide Today, MonthlyPeriod, PeriodFrom, Chained, AccountOk, CreditedSince, ForNobody;
    BalanceExplained(db.ledger, r, k, db.accounts[r].accrual, db.now);
  }

  /**
   When all movements of the period were for bookings, another quota moves the balance by exactly the
   difference, down to 0 at the least; a balance that was above the former quota is cut to the new one.
   */
  lemma QuotaMovesBalance(db: Db, r: nat, k: nat)
    requires LedgerInv(db) && r in db.profiles && r in db.accounts && db.profiles[r].active && db.profiles[r].ownsHours
    requires !AtMost(db.accounts[r].next, Today(db.now)) && db.accounts[r].quota != QuotaOf(db.profiles[r])
    requires PeriodFrom(db.ledger, r, k, db.accounts[r].accrual, db.now) && db.ledger[k].after == db.accounts[r].quota
    requires forall i :: k < i < |db.ledger| && db.ledger[i].account == r ==> db.ledger[i].booking.Some?
    ensures Ensure(db, r).Ok? && r in Ensure(db, r).value.accounts
    ensures var before, after := db.accounts[r], Ensure(db, r).value.accounts[r];
      && (before.balance <= before.quota ==> after.balance == Max(0, before.balance + after.quota - before.quota))
      && (before.balance > before.quota ==> after.balance == after.quota)
  {
    hide Ensure, LedgerInv, Today;
    QuotaChanged(db, r, k);
    NobodysNothing(db.ledger[k + 1..], r);
  }

  lemma {:induction false} NobodysNothing(rows: seq<LedgerRow>, r: nat)
    requires forall i :: 0 <= i < |rows| && rows[i].account == r ==> rows[i].booking.Some?
    ensures ForNobody(rows, r) == 0
  {
    if rows != [] {
      NobodysNothing(rows[..|rows| - 1], r);
    }
  }

  // ---------------------------------------------------------------- movements

  /** What can be spent today: the balance in its period, and nothing outside it. */
  function Spendable(a: Account, today: Date): int {
    if AtMost(a.accrual, today) && AtMost(today, a.expires) then Max(0, a.balance) else 0
  }

  lemma SpendableIs(a: Account, today: Date)
    requires IsDate(a.accrual) && IsDate(a.expires) && IsDate(today)
    ensures Available(a, today) == Spendable(a, today)
  {
    AfterUntil(today, a.accrual);
    AfterUntil(a.expires, today);
  }

  /**
   A movement is refused without an owner, as a debit beyond what can be spent, or when the balance would be no
   safe integer, in this order, and otherwise made.
   */
  lemma MovementAnswers(db: Db, r: nat, delta: int, booking: Option<nat>)
    requires LedgerInv(db)
    ensures var moved := ChangeHours(db, r, delta, booking);
      if r !in db.profiles then moved == Err(ProfileUnavailable)
      else
        var a := UpToDate(db, r);
        if delta < 0 && -delta > Spendable(a, Today(db.now)) then moved == Err(InsufficientBalance)
        else if a.balance + delta > 9007199254740991 || a.balance + delta < 0 then moved == Err(InvalidBalance)
        else moved.Ok?
  {
    hide Ensure, EnsureAccount, Today, LedgerInv, Available, Spendable, UpToDate;
    EnsureGives(db, r);
    OwnerMissing(db, r);
    if r in db.profiles {
      var ready := Ensure(db, r).value;
      EnsureFacts(db, r);
      AccountDates(ready, r);
      SpendableIs(ready.accounts[r], Today(db.now));
    }
  }

  lemma OwnerMissing(db: Db, r: nat)
    ensures r !in db.profiles ==> Ensure(db, r) == Err(ProfileUnavailable)
  {
    hide EnsureAccount, Today, SpentSince;
  }

  lemma AccountDates(db: Db, r: nat)
    requires LedgerInv(db) && r in db.accounts
    ensures IsDate(db.accounts[r].accrual) && IsDate(db.accounts[r].expires)
  {
    hide Chained, LastAfter, IsDate, Today;
    assert AccountOk(db.accounts[r], Today(db.now));
  }

  /** A movement changes the balance of the account, once up to date, by its amount, and leaves every other account. */
  lemma MovementMoves(db: Db, r: nat, delta: int, booking: Option<nat>)
    requires ChangeHours(db, r, delta, booking).Ok?
    ensures r in db.profiles && r in ChangeHours(db, r, delta, booking).value.accounts
    ensures var d := ChangeHours(db, r, delta, booking).value;
      var ready := UpToDate(db, r);
      && d.accounts == db.accounts[r := d.accounts[r]]
      && d.accounts[r] == ready.(balance := ready.balance + delta, revision := ready.revision + 1)
      && d.ledger != [] && d.ledger[|d.ledger| - 1]
         == LedgerRow(r, booking, if delta < 0 then Debit else Credit, if delta < 0 then -delta else delta,
                      ready.balance, ready.balance + delta, db.now)
  {
    hide EnsureAccount, Today, SpentSince, Available;
    EnsureGives(db, r);
  }

  /** The hours of a period that is over cannot be spent: a former owner's account is not renewed. */
  lemma LapsedHoursUnspendable(db: Db, r: nat, amount: int, booking: Option<nat>)
    requires LedgerInv(db) && r in db.profiles && r in db.accounts && amount > 0
    requires !(db.profiles[r].active && db.profiles[r].ownsHours) && Before(db.accounts[r].expires, Today(db.now))
    ensures ChangeHours(db, r, -amount, booking) == Err(InsufficientBalance)
  {
    hide Ensure, EnsureAccount, Today, LedgerInv, Post;
    OthersUnfilled(db, r);
    EnsureGives(db, r);
    MovementAnswers(db, r, -amount, booking);
    NotBoth(db.accounts[r].expires, Today(db.now));
  }

  /** The hours of a booking are the debits less the credits that were made for it on an account, and nothing else. */
  lemma NetCounts(ledger: seq<LedgerRow>, row: LedgerRow, booking: nat, r: nat)
    ensures Net([], booking, r) == 0
    ensures Net(ledger + [row], booking, r)
         == Net(ledger, booking, r)
            + (if row.booking != Some(booking) || row.account != r then 0
               else if row.kind == Debit then row.amount
               else if row.kind == Credit then -row.amount
               else 0)
  {
    NetAppend(ledger, row, booking, r);
  }

  // ---------------------------------------------------------------- a quota that rises

  const FIFTEEN_HOURS := Profile(true, true, 900, None, 1, true)

  /**
   Ten hours, one of them spent on a booking; the quota rises to fifteen: fourteen are left. An hour taken by
   hand, for no booking, is forgotten.
   */
  lemma QuotaRises()
    ensures var risen := Step(Step(Booked(), SetProfile(5, Some(FIFTEEN_HOURS))), Run(EnsureHours(5)));
      5 in risen.accounts && risen.accounts[5].balance == 840
    ensures var taken := Step(Booked(), Run(AdjustHoursBy(5, 2, true, 60, None)));
      && 5 in taken.accounts && taken.accounts[5].balance == 480
      && var risen := Step(Step(taken, SetProfile(5, Some(FIFTEEN_HOURS))), Run(EnsureHours(5)));
         5 in risen.accounts && risen.accounts[5].balance == 840
  {
    BookedHour();
    hide Booked, Inv, Body;
    ByHand(Booked());
    Risen(Booked());
    Risen(Step(Booked(), Run(AdjustHoursBy(5, 2, true, 60, None))));
  }

  /** The first day, with the ten hours of the account and an hour or two taken of them. */
  ghost predicate FirstDay(db: Db) {
    && LedgerInv(db) && db.writable && db.now == 0 && 5 in db.profiles && db.profiles[5] == OWNER
    && 5 in db.accounts && db.accounts[5] == SPENT_ONE.(balance := db.accounts[5].balance, revision := db.accounts[5].revision)
    && (|| (db.ledger == FIRST_ROWS && db.accounts[5].balance == 540)
        || (db.ledger == FIRST_ROWS + [LedgerRow(5, None, Debit, 60, 540, 480, 0)] && db.accounts[5].balance == 480))
  }

  lemma ByHand(db: Db)
    requires HourBooked(db)
    ensures FirstDay(db)
    ensures var taken := Step(db, Run(AdjustHoursBy(5, 2, true, 60, None)));
      FirstDay(taken) && taken.accounts[5].balance == 480
  {
    hide Inv, HoursQuote, Ensure, Today, LedgerInv;
    Stored(db, 1);
    NothingToEnsure(Fenced(db));
    var c := AdjustHoursBy(5, 2, true, 60, None);
    StepInv(db, Run(c));
    FirstSpendable();
    assert LedgerInv(Step(db, Run(c))) by {
      LedgerOf(Step(db, Run(c)));
    }
  }

  lemma LedgerOf(db: Db)
    requires Inv(db)
    ensures LedgerInv(db)
  {
    hide LedgerInv;
  }

  lemma FirstSpendable()
    ensures Available(SPENT_ONE, Today(0)) == 540
  {
    DayZero();
    hide Today;
  }

  lemma Risen(db: Db)
    requires FirstDay(db)
    ensures var risen := Step(Step(db, SetProfile(5, Some(FIFTEEN_HOURS))), Run(EnsureHours(5)));
      5 in risen.accounts && risen.accounts[5].balance == 840
  {
    hide LedgerInv, Ensure, Today;
    var start := Fenced(Step(db, SetProfile(5, Some(FIFTEEN_HOURS))));
    DayZero();
    LedgerInvFrame(db, start);
    assert PeriodFrom(start.ledger, 5, 0, Date(1970, 1, 1), 0);
    QuotaChanged(start, 5, 0);
    AfterFirst(start.ledger);
  }

  lemma AfterFirst(ledger: seq<LedgerRow>)
    requires ledger == FIRST_ROWS || ledger == FIRST_ROWS + [LedgerRow(5, None, Debit, 60, 540, 480, 0)]
    ensures ForNobody(ledger[1..], 5) == if |ledger| == 2 then 0 else -60
  {
    var rows := ledger[1..];
    assert rows[0] == FIRST_ROWS[1] && [FIRST_ROWS[1]][..0] == [];
    assert ForNobody([FIRST_ROWS[1]], 5) == 0;
    if |ledger| == 2 {
      assert rows == [FIRST_ROWS[1]];
    } else {
      assert rows[1] == LedgerRow(5, None, Debit, 60, 540, 480, 0);
      assert rows[..1] == [FIRST_ROWS[1]];
    }
  }
}
