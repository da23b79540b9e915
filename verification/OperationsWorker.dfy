/** The periodic worker as it runs over the store: holds, then payment policies, then accounts. */
module OperationsWorker {
  import opened Calendar
  import opened Results
  import opened Records
  import opened Hours
  import opened Payments
  import opened Machine
  import opened Invariants
  import opened Worker
  import opened OperationsStore
  import opened OperationsPayments
  import Examples
  import Fingerprint
  import Requests

  const HOLDS_A_PASS := 20
  const POLICIES_A_PASS := 200

  /** What the provider says of a payment that is final: whether it succeeded, and for which amount. */
  datatype Final = Final(succeeded: bool, reported: Option<int>)

  class WorkerService {
    const store: Store
    const operations: Operations
    var running: bool

    predicate Valid() {
      operations.store == store && operations.Valid()
    }

    constructor (operations: Operations)
      requires operations.Valid()
      ensures Valid() && this.operations == operations && !running
    {
      this.operations, this.store, running := operations, operations.store, false;
    }

    /** One command of the worker, as a step of the run so far. */
    method Step(c: Command, ghost start: Db, ghost events: seq<Event>) returns (r: Result<()>, ghost longer: seq<Event>)
      requires Valid() && Inv(store.State()) && Periodic(c) && store.State() == After(start, events)
      modifies store
      ensures store.State() == After(start, longer) && Inv(store.State())
      ensures store.State() == Machine.Step(old(store.State()), Run(c)) && SameSurroundings(old(store.State()), store.State())
      ensures r.Ok? <==> Execute(old(store.State()), c).Ok?
      ensures LapsedHolds(store.State()) <= old(LapsedHolds(store.State()))
      ensures r.Ok? && c.ExpireHold? ==> c.id !in LapsedHolds(store.State())
    {
      hide After, Inv, Body, LapsedHolds;
      longer := events + [Run(c)];
      OneMore(start, events, Run(c));
      StepInv(store.State(), Run(c));
      PeriodicSurroundings(store.State(), c);
      if Execute(store.State(), c).Ok? {
        PeriodicLapses(store.State(), c);
      }
      r := operations.Command(c);
    }

    /** One polled result: answered from the receipt of an earlier poll or webhook, or applied and recorded. */
    method Poll(local: nat, pid: nat, final: Final, ghost start: Db, ghost events: seq<Event>)
      returns (r: Result<()>, ghost longer: seq<Event>)
      requires Valid() && Inv(store.State()) && store.State() == After(start, events)
      modifies store, operations`receipts
      ensures store.State() == After(start, longer) && Inv(store.State())
      ensures SameSurroundings(old(store.State()), store.State())
      ensures LapsedHolds(store.State()) <= old(LapsedHolds(store.State()))
      ensures ResultKey(pid, final.succeeded) in old(operations.receipts) ==>
                store.State() == old(store.State()) && operations.receipts == old(operations.receipts)
      ensures NoMoreRenewals(old(operations.receipts), operations.receipts)
    {
      hide After, Inv, Body, LapsedHolds, ResultKey, ResultForm, RenewKey, Requests.Handle;
      var c := ReceiveResult(local, final.succeeded, final.reported);
      var request := Requests.Request(ResultKey(pid, final.succeeded), ResultForm(pid, final.succeeded), c);
      ghost var before := Requests.Front(store.State(), operations.receipts);
      longer := events;
      OneMore(start, events, Run(c));
      StepInv(store.State(), Run(c));
      PeriodicSurroundings(store.State(), c);
      if Execute(store.State(), c).Ok? {
        PeriodicLapses(store.State(), c);
      }
      PollHandled(before, request, pid, final.succeeded);
      r := operations.Handle(request);
      if store.State() != before.db {
        longer := events + [Run(c)];
      }
    }

    /** Expires the lapsed holds it finds, each after polling the payment it is held for; stops at the first error. */
    method ExpireHolds(finals: map<nat, Final>, ghost start: Db, ghost events: seq<Event>)
      returns (r: Result<()>, ghost longer: seq<Event>)
      requires Valid() && Inv(store.State()) && store.State() == After(start, events)
      modifies store, operations`receipts
      ensures store.State() == After(start, longer) && Inv(store.State())
      ensures NoMoreRenewals(old(operations.receipts), operations.receipts)
      ensures SameSurroundings(old(store.State()), store.State())
      ensures LapsedHolds(store.State()) <= old(LapsedHolds(store.State()))
      ensures r.Ok? && |old(LapsedHolds(store.State()))| <= HOLDS_A_PASS ==> LapsedHolds(store.State()) == {}
    {
      hide After, Inv, Machine.Step, LapsedHolds, Execute, ResultKey, RenewKey;
      longer, r := events, Ok(());
      var expired, rows, count := LapsedHolds(store.State()), store.bookings, 0;
      LapsedStored(store.State());
      while expired != {} && count < HOLDS_A_PASS && r.Ok?
        invariant store.State() == After(start, longer) && Inv(store.State())
        invariant SameSurroundings(old(store.State()), store.State())
        invariant LapsedHolds(store.State()) <= old(LapsedHolds(store.State())) && expired <= rows.Keys
        invariant r.Ok? ==> LapsedHolds(store.State()) <= expired
        invariant |expired| + count == |old(LapsedHolds(store.State()))|
        invariant NoMoreRenewals(old(operations.receipts), operations.receipts)
        decreases |expired|
      {
        var id :| id in expired;
        var row := rows[id];
        if row.providerPayment.Some? && row.providerPayment.value in finals {
          var local := PaymentOf(store.payments, row.providerPayment.value);
          var final := finals[row.providerPayment.value];
          if local.Some? {
            r, longer := Poll(local.value, row.providerPayment.value, final, start, longer);
          }
        }
        if r.Ok? {
          r, longer := Step(ExpireHold(id), start, longer);
        }
        expired, count := expired - {id}, count + 1;
      }
      assert |old(LapsedHolds(store.State()))| <= HOLDS_A_PASS && r.Ok? ==> |expired| == 0;
    }

    /** The policy of one booking, written if it has moved on. */
    method FollowPolicy(id: nat, policy: Policy, ghost start: Db, ghost events: seq<Event>)
      returns (r: Result<()>, ghost longer: seq<Event>)
      requires Valid() && Inv(store.State()) && store.writable && store.State() == After(start, events)
      requires id in TrackedBookings(store.State()) && store.bookings[id].policy == policy
      modifies store
      ensures store.State() == After(start, longer) && Inv(store.State())
      ensures SameSurroundings(old(store.State()), store.State())
      ensures LapsedHolds(store.State()) <= old(LapsedHolds(store.State()))
      ensures TrackedBookings(store.State()) == old(TrackedBookings(store.State()))
      ensures store.bookings.Keys == old(store.bookings.Keys)
      ensures forall j :: j in store.bookings && j != id ==> store.bookings[j] == old(store.bookings)[j]
      ensures PolicyCurrent(store.bookings[id], store.now)
    {
      hide After, Inv, Machine.Step, LapsedHolds, Execute, Lateness, Tracked;
      longer, r := events, Ok(());
      if Lateness(policy, store.now) != policy.state {
        FollowOne(store.State(), id);
        r, longer := Step(TickPolicy(id, policy), start, longer);
      }
    }

    /**
     Follows the payment policies that have moved on, of the bookings it finds: two hundred at most, in no
     order. The others stay as they are, and since the same bookings are tracked afterwards, a later pass may
     find the same ones.
     */
    method FollowPolicies(ghost start: Db, ghost events: seq<Event>)
      returns (r: Result<()>, ghost longer: seq<Event>, ghost followed: set<nat>)
      requires Valid() && Inv(store.State()) && store.writable && store.State() == After(start, events)
      modifies store
      ensures store.State() == After(start, longer) && Inv(store.State())
      ensures SameSurroundings(old(store.State()), store.State())
      ensures LapsedHolds(store.State()) <= old(LapsedHolds(store.State()))
      ensures TrackedBookings(store.State()) == old(TrackedBookings(store.State())) >= followed
      ensures |followed| <= POLICIES_A_PASS
      ensures r.Ok? ==> |followed| == Min(|TrackedBookings(store.State())|, POLICIES_A_PASS)
      ensures FollowedOnly(old(store.bookings), store.bookings, followed, store.now)
      ensures r.Ok? && |TrackedBookings(store.State())| <= POLICIES_A_PASS ==> followed == TrackedBookings(store.State())
    {
      hide After, Inv, Machine.Step, LapsedHolds, Execute, TrackedBookings, PolicyCurrent, FollowedOnly;
      TrackedStored(store.State());
      NothingFollowed(store.bookings, store.now);
      longer, r, followed := events, Ok(()), {};
      ghost var tracked := TrackedBookings(store.State());
      var left, rows, count := TrackedBookings(store.State()), store.bookings, 0;
      while left != {} && count < POLICIES_A_PASS && r.Ok?
        invariant store.State() == After(start, longer) && Inv(store.State())
        invariant SameSurroundings(old(store.State()), store.State())
        invariant LapsedHolds(store.State()) <= old(LapsedHolds(store.State()))
        invariant left <= tracked == TrackedBookings(store.State()) && |left| + count == |tracked|
        invariant followed == tracked - left && |followed| == count <= POLICIES_A_PASS
        invariant FollowedOnly(rows, store.bookings, followed, store.now)
        decreases |left|
      {
        var id :| id in left;
        ghost var before := store.bookings;
        OneFewer(tracked, left, followed, id);
        NotYetFollowed(rows, before, followed, store.now, id);
        r, longer := FollowPolicy(id, rows[id].policy, start, longer);
        FollowMore(rows, before, store.bookings, followed, store.now, id);
        left, count, followed := left - {id}, count + 1, followed + {id};
      }
      assert |tracked| <= POLICIES_A_PASS && r.Ok? ==> |left| == 0;
    }

    /** Brings the accounts up to date that its own test selects, each under the key of the day. */
    method RenewAccounts(ghost start: Db, ghost events: seq<Event>) returns (r: Result<()>, ghost longer: seq<Event>)
      requires Valid() && Inv(store.State()) && store.writable && store.State() == After(start, events)
      modifies store, operations`receipts
      ensures store.State() == After(start, longer) && Inv(store.State())
      ensures SameSurroundings(old(store.State()), store.State()) && store.bookings == old(store.bookings)
      ensures r.Ok? ==> forall x :: x in store.accounts ==> AccountSettled(store.State(), old(operations.receipts), x)
    {
      hide After, Inv, Machine.Step, Execute, Current, Skips, RenewKey, Requests.Handle;
      longer, r := events, Ok(());
      var today := Today(store.now);
      var left, rows := store.accounts.Keys, store.accounts;
      while left != {} && r.Ok?
        invariant store.State() == After(start, longer) && Inv(store.State()) && store.writable
        invariant SameSurroundings(old(store.State()), store.State()) && store.bookings == old(store.bookings)
        invariant left <= rows.Keys == store.accounts.Keys && forall x :: x in left ==> store.accounts[x] == rows[x]
        invariant forall x, n, d :: x in left && RenewKey(x, n, d) in operations.receipts ==>
                    RenewKey(x, n, d) in old(operations.receipts)
        invariant r.Ok? ==>
                    forall x :: x in rows.Keys - left ==> AccountSettled(store.State(), old(operations.receipts), x)
        decreases |left|
      {
        var x :| x in left;
        ghost var before := store.State();
        if x in store.profiles && store.profiles[x].active && store.profiles[x].ownsHours
           && !Skips(rows[x], store.profiles[x], today) {
          r, longer := Renew(x, rows[x].revision, start, longer);
          OwnKey(x, rows[x].revision, today);
          assert r.Ok? ==> AccountSettled(store.State(), old(operations.receipts), x);
          forall y | y in rows.Keys - left && r.Ok? ensures AccountSettled(store.State(), old(operations.receipts), y) {
            StaysSettled(before, store.State(), old(operations.receipts), y);
          }
        } else {
          assert AccountSettled(store.State(), old(operations.receipts), x);
        }
        left := left - {x};
      }
    }

    /** One renewal: answered from its receipt, or run and recorded. */
    method Renew(x: nat, revision: int, ghost start: Db, ghost events: seq<Event>)
      returns (r: Result<()>, ghost longer: seq<Event>)
      requires Valid() && Inv(store.State()) && store.writable && store.State() == After(start, events)
      requires x in store.accounts && store.accounts[x].revision == revision && ActiveOwner(store.State(), x)
      modifies store, operations`receipts
      ensures store.State() == After(start, longer) && Inv(store.State())
      ensures SameSurroundings(old(store.State()), store.State()) && store.bookings == old(store.bookings)
      ensures x in store.accounts && store.accounts == old(store.accounts)[x := store.accounts[x]]
      ensures r.Ok? ==>
                || Current(store.accounts[x], store.profiles[x], Today(store.now))
                || (store.accounts[x].revision == revision
                    && RenewKey(x, revision, Today(store.now)) in old(operations.receipts))
      ensures old(operations.receipts).Keys <= operations.receipts.Keys
              <= old(operations.receipts).Keys + {RenewKey(x, revision, Today(store.now))}
    {
      hide After, Inv, Body, Current, RenewKey, LedgerInv;
      var request := Requests.Request(RenewKey(x, revision, Today(store.now)), RENEW_FORM, EnsureHours(x));
      longer := events;
      ghost var before := Requests.Front(store.State(), operations.receipts);
      FreshLedger(store.State());
      RenewOne(store.State(), x);
      PeriodicSurroundings(store.State(), EnsureHours(x));
      StepInv(store.State(), Run(EnsureHours(x)));
      OneMore(start, events, Run(EnsureHours(x)));
      RenewHandled(before, request, x);
      r := operations.Handle(request);
      if Requests.Handle(before, request).0.db != before.db {
        longer := events + [Run(EnsureHours(x))];
      }
    }

    /**
     One pass over holds, policies and accounts; it does nothing while another pass runs or writes are
     paused, and stops at the first error.
     */
    method Tick(finals: map<nat, Final>) returns (r: Result<()>, ghost events: seq<Event>)
      requires Valid() && Inv(store.State())
      modifies this`running, store, operations`receipts
      ensures store.State() == After(old(store.State()), events) && Inv(store.State()) && running == old(running)
      ensures LapsedHolds(store.State()) <= old(LapsedHolds(store.State()))
      ensures old(!running && store.writable) && r.Ok? ==>
                && (|old(LapsedHolds(store.State()))| <= HOLDS_A_PASS ==> LapsedHolds(store.State()) == {})
                && (|TrackedBookings(store.State())| <= POLICIES_A_PASS ==>
                      forall id :: id in TrackedBookings(store.State()) ==> PolicyCurrent(store.bookings[id], store.now))
                && forall x :: x in store.accounts ==> AccountSettled(store.State(), old(operations.receipts), x)
    {
      hide After, Inv, Lapsed, Tracked, Lateness, AccountSettled, RenewKey;
      events, r := [], Ok(());
      NoEvents(store.State());
      if running || !store.writable {
        return;
      }
      running := true;
      r, events := ExpireHolds(finals, old(store.State()), events);
      if r.Ok? {
        ghost var followed;
        r, events, followed := FollowPolicies(old(store.State()), events);
      }
      if r.Ok? {
        ghost var known := operations.receipts;
        r, events := RenewAccounts(old(store.State()), events);
        forall x | r.Ok? && x in store.accounts ensures AccountSettled(store.State(), old(operations.receipts), x) {
          SettledEarlier(store.State(), old(operations.receipts), known, x);
        }
      }
      running := false;
    }
  }

  /** The renewal of the day that the worker asks for. */
  function RenewalOf(db: Db, x: nat): Requests.Request
    requires x in db.accounts
  {
    Requests.Request(RenewKey(x, db.accounts[x].revision, Today(db.now)), RENEW_FORM, EnsureHours(x))
  }

  /** The worker's query and test select the account. */
  predicate Selected(db: Db, x: nat) {
    x in db.accounts && ActiveOwner(db, x) && !Skips(db.accounts[x], db.profiles[x], Today(db.now))
  }

  /**
   What the key of the day leaves undone: an account that is current is selected and renewed without effect,
   its profile then gets another quota, and the renewal of the same day, for which the account is selected
   again, is answered from its receipt.
   */
  lemma RenewalAnswered(s: Requests.Front, x: nat, p: Profile)
    requires s.db.writable && Selected(s.db, x) && IsDate(s.db.accounts[x].next)
    requires p.active && p.ownsHours && RenewalOf(s.db, x).key !in s.receipts
    requires var a, today := s.db.accounts[x], Today(s.db.now);
      Current(a, s.db.profiles[x], today) && !Current(a, p, today) && !Skips(a, p, today)
    ensures var once := Requests.Handle(s, RenewalOf(s.db, x)).0;
      && RenewalOf(s.db, x).key in once.receipts
      && var changed := once.(db := Machine.Step(once.db, SetProfile(x, Some(p))));
         && Selected(changed.db, x) && RenewalOf(changed.db, x) == RenewalOf(s.db, x)
         && !Current(changed.db.accounts[x], p, Today(changed.db.now)) && changed.db.profiles[x] == p
         && Requests.Handle(changed, RenewalOf(changed.db, x)) == (changed, Ok(()))
  {
    hide Current, Skips, RenewKey, Today, Requests.Handle;
    RenewedOnce(s, x);
    AnsweredAgain(Requests.Handle(s, RenewalOf(s.db, x)).0, x, p);
  }

  lemma RenewedOnce(s: Requests.Front, x: nat)
    requires s.db.writable && Selected(s.db, x) && IsDate(s.db.accounts[x].next)
    requires RenewalOf(s.db, x).key !in s.receipts && Current(s.db.accounts[x], s.db.profiles[x], Today(s.db.now))
    ensures var renewal := RenewalOf(s.db, x);
      Requests.Handle(s, renewal) == (Requests.Front(Fenced(s.db), s.receipts[renewal.key := renewal.form]), Ok(()))
  {
    hide Current, Skips, RenewKey, Ensure, Today;
    CurrentIff(Fenced(s.db), x);
  }

  lemma AnsweredAgain(once: Requests.Front, x: nat, p: Profile)
    requires x in once.db.accounts && RenewalOf(once.db, x).key in once.receipts
    requires once.receipts[RenewalOf(once.db, x).key] == RENEW_FORM
    ensures var changed := once.(db := Machine.Step(once.db, SetProfile(x, Some(p))));
      && x in changed.db.accounts && RenewalOf(changed.db, x) == RenewalOf(once.db, x)
      && Requests.Handle(changed, RenewalOf(changed.db, x)) == (changed, Ok(()))
  {
    hide RenewKey, Execute, Today;
  }

  // ---------------------------------------------------------------- a day with two quotas

  /** Ten hours by the policy, fifteen and then twenty by the services of the offices. */
  const FIFTEEN := Profile(true, true, 600, Some(900), 1, true)
  const TWENTY := Profile(true, true, 600, Some(1200), 1, true)

  function Opened(): Requests.Front {
    Requests.Front(
      Machine.Step(Machine.Step(Empty(0), SetProfile(5, Some(FIFTEEN))), Run(EnsureHours(5))), map[])
  }

  lemma OpenedAccount()
    ensures var db := Opened().db;
      && db.writable && db.now == 0 && 5 in db.profiles && db.profiles[5] == FIFTEEN
      && 5 in db.accounts
      && db.accounts[5] == Account(900, 900, 1, Date(1970, 1, 1), Date(1970, 1, 31), Date(1970, 2, 1), 1)
  {
    Examples.DayZero();
    hide Today, MonthlyPeriod;
  }

  /**
   Such a day: an account opened with fifteen hours is current, and the worker, which looks at the ten of the
   policy, renews it without effect; its offices then give twenty, and the worker's next renewal is answered.
   */
  lemma QuotaTwiceADay()
    ensures var s := Opened();
      && Selected(s.db, 5) && Current(s.db.accounts[5], FIFTEEN, Today(0))
      && var once := Requests.Handle(s, RenewalOf(s.db, 5)).0;
         var changed := once.(db := Machine.Step(once.db, SetProfile(5, Some(TWENTY))));
         && Selected(changed.db, 5) && !Current(changed.db.accounts[5], TWENTY, Today(changed.db.now))
         && Requests.Handle(changed, RenewalOf(changed.db, 5)) == (changed, Ok(()))
  {
    OpenedAccount();
    Examples.DayZero();
    hide Opened, Requests.Handle, RenewKey, MonthlyPeriod, DateOfDay, Machine.Step;
    assert Opened().receipts == map[] by { NothingAnswered(); }
    RenewalAnswered(Opened(), 5, TWENTY);
  }

  lemma NothingAnswered()
    ensures Opened().receipts == map[]
  {
    hide Machine.Step;
  }

  lemma StaysSettled(before: Db, after: Db, receipts: map<string, Fingerprint.Json>, y: nat)
    requires SameSurroundings(before, after) && y in before.accounts && y in after.accounts
    requires after.accounts[y] == before.accounts[y] && AccountSettled(before, receipts, y)
    ensures AccountSettled(after, receipts, y)
  {
  }

  /** No renewal has been recorded in between. */
  ghost predicate NoMoreRenewals(before: map<string, Fingerprint.Json>, after: map<string, Fingerprint.Json>) {
    forall x, n, d :: RenewKey(x, n, d) in after ==> RenewKey(x, n, d) in before
  }

  lemma SettledEarlier(db: Db, before: map<string, Fingerprint.Json>, after: map<string, Fingerprint.Json>, x: nat)
    requires x in db.accounts && AccountSettled(db, after, x) && NoMoreRenewals(before, after)
    ensures AccountSettled(db, before, x)
  {
    hide RenewKey, Current, Skips;
  }

  /** A polled result is answered or refused and changes nothing, or is applied and recorded under its key. */
  lemma PollHandled(s: Requests.Front, request: Requests.Request, pid: nat, succeeded: bool)
    requires request.key == ResultKey(pid, succeeded)
    ensures var t := Requests.Handle(s, request).0;
      && (request.key in s.receipts ==> t == s)
      && (t.db == s.db || t.db == Machine.Step(s.db, Run(request.command)))
      && (t.db != s.db ==> Execute(s.db, request.command).Ok?)
      && NoMoreRenewals(s.receipts, t.receipts)
  {
    hide Execute, Requests.Preliminary, Requests.Early, ResultKey, RenewKey;
    var t := Requests.Handle(s, request).0;
    forall x, n, d | RenewKey(x, n, d) in t.receipts ensures RenewKey(x, n, d) in s.receipts {
      ResultNotRenewal(pid, succeeded, x, n, d);
    }
  }

  lemma OwnKey(x: nat, revision: int, today: Date)
    ensures forall y, n, d :: RenewKey(y, n, d) == RenewKey(x, revision, today) ==> y == x
  {
    forall y, n, d | RenewKey(y, n, d) == RenewKey(x, revision, today) ensures y == x {
      RenewKeyNames(y, x, n, revision, d, today);
    }
  }

  /** The policies of some bookings are current, and the other bookings are as they were. */
  ghost predicate FollowedOnly(rows: map<nat, Booking>, bookings: map<nat, Booking>, followed: set<nat>, now: int) {
    && bookings.Keys == rows.Keys && followed <= bookings.Keys
    && (forall id :: id in followed ==> PolicyCurrent(bookings[id], now))
    && (forall id :: id in bookings && id !in followed ==> bookings[id] == rows[id])
  }

  lemma NothingFollowed(rows: map<nat, Booking>, now: int)
    ensures FollowedOnly(rows, rows, {}, now)
  {
  }

  lemma NotYetFollowed(rows: map<nat, Booking>, bookings: map<nat, Booking>, followed: set<nat>, now: int, id: nat)
    requires FollowedOnly(rows, bookings, followed, now) && id in rows && id !in followed
    ensures id in bookings && bookings[id] == rows[id]
  {
  }

  lemma FollowMore(rows: map<nat, Booking>, before: map<nat, Booking>, after: map<nat, Booking>, followed: set<nat>,
                   now: int, id: nat)
    requires FollowedOnly(rows, before, followed, now) && id in before
    requires after.Keys == before.Keys && PolicyCurrent(after[id], now)
    requires forall j :: j in after && j != id ==> after[j] == before[j]
    ensures FollowedOnly(rows, after, followed + {id}, now)
  {
    hide PolicyCurrent;
  }

  lemma OneFewer(all: set<nat>, left: set<nat>, done: set<nat>, id: nat)
    requires id in left && left <= all && done == all - left
    ensures done + {id} == all - (left - {id}) && |done + {id}| == |done| + 1
    ensures left - {id} <= all && |left - {id}| == |left| - 1
  {
  }

  lemma TrackedStored(db: Db)
    ensures TrackedBookings(db) <= db.bookings.Keys
  {
  }

  lemma LapsedStored(db: Db)
    ensures LapsedHolds(db) <= db.bookings.Keys
  {
  }

  lemma FreshLedger(db: Db)
    requires Inv(db)
    ensures LedgerInv(db)
  {
    hide LedgerInv;
  }

  /** A renewal is answered from its receipt and changes nothing, or is the renewal itself, recorded under its key. */
  lemma RenewHandled(s: Requests.Front, request: Requests.Request, x: nat)
    requires request.command == EnsureHours(x) && s.db.writable
    ensures var (t, answer) := Requests.Handle(s, request);
      && (request.key in s.receipts ==> t == s)
      && (request.key !in s.receipts ==>
            && t.db == Machine.Step(s.db, Run(EnsureHours(x)))
            && (answer.Ok? ==> t.receipts.Keys == s.receipts.Keys + {request.key})
            && (answer.Err? ==> t == s))
  {
    hide Execute;
  }

  lemma NoEvents(db: Db)
    ensures After(db, []) == db
  {
  }

  lemma OneMore(db: Db, events: seq<Event>, e: Event)
    ensures After(db, events + [e]) == Machine.Step(After(db, events), e)
  {
    assert (events + [e])[..|events|] == events;
    hide Machine.Step;
  }
}
