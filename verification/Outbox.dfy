/**
 The outbox: at-least-once delivery of invoice jobs by competing workers, and by the request that
 enqueued them, gives every invoice exactly once.
 */
module Outbox {
  import opened Results
  import opened Text
  import Fingerprint
  import Commands

  const LEASE_MS := 120000
  const MAX_BACKOFF := 3600000

  // ---------------------------------------------------------------- keys

  /** What an invoice is made out for: a new booking, or a revision of a changed one. */
  datatype Key = ForCreate(booking: nat) | ForChange(booking: nat, revision: nat)

  function KeyText(k: Key): string {
    match k
    case ForCreate(booking) => "invoice-create:" + Decimal(booking)
    case ForChange(booking, revision) => "invoice-change:" + (Decimal(booking) + [':'] + Decimal(revision))
  }

  /** Different jobs never share a key. */
  lemma KeyInjective(k: Key, l: Key)
    requires KeyText(k) == KeyText(l)
    ensures k == l
  {
    var s, t := KeyText(k), KeyText(l);
    assert k.ForCreate? ==> s[9] == 'r';
    assert k.ForChange? ==> s[9] == 'h';
    assert l.ForCreate? ==> t[9] == 'r';
    assert l.ForChange? ==> t[9] == 'h';
    assert s[15..] == t[15..];
    if k.ForCreate? {
      DecimalInjective(k.booking, l.booking);
    } else {
      PairInjective(k.booking, k.revision, l.booking, l.revision, ':');
    }
  }

  /** The fingerprint of the invoice command: the operation names the booking, the input is empty. */
  function Form(booking: nat): Fingerprint.Json {
    Commands.CommandForm("invoice.create:" + Decimal(booking), Fingerprint.Object([]))
  }

  // ---------------------------------------------------------------- the invoice command

  datatype Invoice = Invoice(booking: nat, amount: nat)

  /** Invoices are numbered in the order they are issued; `current` is the one a booking refers to. */
  datatype Bills = Bills(invoices: seq<Invoice>, current: map<nat, nat>)

  ghost predicate BillsOk(b: Bills) {
    forall k :: k in b.current ==> b.current[k] < |b.invoices| && b.invoices[b.current[k]].booking == k
  }

  /** The current invoice stands when it is for what is outstanding, or when nothing is. */
  predicate Stands(b: Bills, booking: nat, outstanding: nat) {
    && booking in b.current && b.current[booking] < |b.invoices|
    && (b.invoices[b.current[booking]].amount == outstanding || outstanding == 0)
  }

  function Issue(b: Bills, booking: nat, outstanding: nat): Bills {
    if Stands(b, booking, outstanding) then b
    else Bills(b.invoices + [Invoice(booking, outstanding)], b.current[booking := |b.invoices|])
  }

  /** After it, the booking's own invoice is for what is outstanding, unless nothing is; no issued invoice changes. */
  lemma IssueMeets(b: Bills, booking: nat, outstanding: nat)
    requires BillsOk(b)
    ensures var after := Issue(b, booking, outstanding);
      && BillsOk(after) && booking in after.current && after.invoices[after.current[booking]].booking == booking
      && (outstanding == 0 || after.invoices[after.current[booking]].amount == outstanding)
      && b.invoices <= after.invoices && |after.invoices| <= |b.invoices| + 1
      && (forall k :: k in b.current && k != booking ==> k in after.current && after.current[k] == b.current[k])
  {
  }

  /** The booking's invoice is kept when it is for what is outstanding or nothing is; otherwise one new invoice is issued. */
  lemma IssueKeepsOrAdds(b: Bills, booking: nat, outstanding: nat)
    requires BillsOk(b)
    ensures var after := Issue(b, booking, outstanding);
      if booking in b.current && (outstanding == 0 || b.invoices[b.current[booking]].amount == outstanding) then after == b
      else
        && after.invoices == b.invoices + [Invoice(booking, outstanding)]
        && booking in after.current && after.current[booking] == |b.invoices|
  {
  }

  // ---------------------------------------------------------------- the documents

  datatype JobState = Waits | Running(lease: nat, until: int) | Done

  datatype Job = Job(booking: nat, state: JobState, attempts: nat, retryAt: int)

  /** One committed run of the invoice command. */
  datatype Effect = Effect(key: string, booking: nat, outstanding: nat)

  datatype Documents = Documents(
    jobs: map<string, Job>, receipts: map<string, Commands.Receipt>, effects: seq<Effect>, bills: Bills)

  function Power(n: nat): nat {
    if n == 0 then 1 else 2 * Power(n - 1)
  }

  /** The wait after a failed attempt: ten seconds, doubled for each attempt up to the eighth, an hour at most. */
  function Backoff(attempts: nat): nat {
    var doubled := 10000 * Power(if attempts < 8 then attempts else 8);
    if MAX_BACKOFF < doubled then MAX_BACKOFF else doubled
  }

  /** The hour is never reached: the longest wait is 2560 seconds, and no attempt waits less than the one before. */
  lemma BackoffBounds(attempts: nat)
    ensures Backoff(attempts) == 10000 * Power(if attempts < 8 then attempts else 8) <= 2560000 < MAX_BACKOFF
    ensures Backoff(attempts) <= Backoff(attempts + 1) && (attempts >= 1 ==> 20000 <= Backoff(attempts))
    ensures Backoff(1) == 20000 && (1 <= attempts < 8 ==> Backoff(attempts + 1) == 2 * Backoff(attempts))
    ensures attempts >= 8 ==> Backoff(attempts) == 2560000
  {
    assert Power(0) == 1 && Power(1) == 2 && Power(2) == 4 && Power(3) == 8 && Power(4) == 16;
    assert Power(5) == 32 && Power(6) == 64 && Power(7) == 128 && Power(8) == 256;
    if attempts < 8 {
      assert attempts in {0, 1, 2, 3, 4, 5, 6, 7};
    }
  }

  /** A job is put in once; a second request for the same key changes nothing. */
  function Enqueue(d: Documents, k: Key, now: nat): Documents {
    if KeyText(k) in d.jobs then d
    else d.(jobs := d.jobs[KeyText(k) := Job(k.booking, Waits, 0, now)])
  }

  predicate Claimable(j: Job, now: int) {
    match j.state
    case Waits => j.retryAt <= now
    case Running(_, until) => until < now
    case Done => false
  }

  function Claim(d: Documents, key: string, lease: nat, now: nat): Documents
    requires key in d.jobs
  {
    d.(jobs := d.jobs[key := d.jobs[key].(state := Running(lease, now + LEASE_MS))])
  }

  predicate Holds(d: Documents, key: string, lease: nat) {
    key in d.jobs && d.jobs[key].state.Running? && d.jobs[key].state.lease == lease
  }

  function Complete(d: Documents, key: string, lease: nat): Documents {
    if !Holds(d, key, lease) then d
    else d.(jobs := d.jobs[key := d.jobs[key].(state := Done)])
  }

  /** `attempts` is the number the worker read when it claimed the job. */
  function Reschedule(d: Documents, key: string, lease: nat, attempts: nat, now: nat): Documents {
    if !Holds(d, key, lease) then d
    else d.(jobs := d.jobs[key := d.jobs[key].(state := Waits, attempts := attempts + 1,
                                               retryAt := now + Backoff(attempts + 1))])
  }

  /**
   What the invoice command reads before it issues anything: whether the booking is there and not cancelled,
   whether its profile's private data are complete, if it has a profile, whether an issuer is set up, and of
   a booking without a profile whether its requisites are missing and its former invoice has them.
   */
  datatype Facts = Facts(live: bool, profileComplete: Option<bool>, issuer: bool, requisitesMissing: bool,
                         priorSnapshot: bool)

  function Refusal(f: Facts, prior: bool): Option<Error> {
    if !f.live then Some(InvalidState)
    else if f.profileComplete == Some(false) then Some(ProfileDataRequired)
    else if !f.issuer then Some(InvoiceIssuerRequired)
    else if f.profileComplete.None? && f.requisitesMissing && !(prior && f.priorSnapshot) then Some(ProfileDataRequired)
    else None
  }

  /** The invoice command under `key`: answered from its receipt, or run and recorded. */
  function Deliver(d: Documents, key: string, booking: nat, outstanding: nat, facts: Facts)
    : (Documents, Result<Commands.Value>)
  {
    if key in d.receipts then (d, Commands.Answer(d.receipts[key], Form(booking)))
    else if Refusal(facts, booking in d.bills.current).Some? then
      (d, Err(Refusal(facts, booking in d.bills.current).value))
    else
      var bills := Issue(d.bills, booking, outstanding);
      var issued := bills.current[booking];
      (Documents(d.jobs, d.receipts[key := Commands.Receipt(Form(booking), issued)],
                 d.effects + [Effect(key, booking, outstanding)], bills),
       Ok(issued))
  }

  // ---------------------------------------------------------------- the worker

  lemma EarliestExists(jobs: map<string, Job>, keys: set<string>)
    requires keys != {} && forall k :: k in keys ==> k in jobs
    ensures exists k :: k in keys && forall l :: l in keys ==> jobs[k].retryAt <= jobs[l].retryAt
    decreases |keys|
  {
    var k :| k in keys;
    if keys == {k} {
      assert forall l :: l in keys ==> l == k;
    } else {
      var rest := keys - {k};
      assert keys == rest + {k};
      EarliestExists(jobs, rest);
      var m :| m in rest && forall l :: l in rest ==> jobs[m].retryAt <= jobs[l].retryAt;
      var best := if jobs[k].retryAt <= jobs[m].retryAt then k else m;
      assert best in keys && forall l :: l in keys ==> jobs[best].retryAt <= jobs[l].retryAt;
    }
  }

  /** The outbox and what its jobs write, as the worker updates them. */
  class Queue {
    var jobs: map<string, Job>
    var receipts: map<string, Commands.Receipt>
    var effects: seq<Effect>
    var bills: Bills

    function State(): Documents
      reads this
    {
      Documents(jobs, receipts, effects, bills)
    }

    constructor ()
      ensures State() == Documents(map[], map[], [], Bills([], map[]))
    {
      jobs, receipts, effects, bills := map[], map[], [], Bills([], map[]);
    }

    method Add(k: Key, now: nat)
      modifies this
      ensures State() == Enqueue(old(State()), k, now)
    {
      var key := KeyText(k);
      if key !in jobs {
        jobs := jobs[key := Job(k.booking, Waits, 0, now)];
      }
    }

    /** Takes the claimable job with the earliest retry time, if there is one. */
    method ClaimNext(lease: nat, now: nat) returns (claimed: Option<string>)
      modifies this
      ensures claimed.None? ==>
                State() == old(State()) && forall k :: k in jobs ==> !Claimable(jobs[k], now)
      ensures claimed.Some? ==>
                && claimed.value in old(jobs) && Claimable(old(jobs)[claimed.value], now)
                && (forall k :: k in old(jobs) && Claimable(old(jobs)[k], now) ==>
                      old(jobs)[claimed.value].retryAt <= old(jobs)[k].retryAt)
                && State() == Claim(old(State()), claimed.value, lease, now)
    {
      var due := set k | k in jobs && Claimable(jobs[k], now);
      if due == {} {
        assert forall k :: k in jobs && Claimable(jobs[k], now) ==> k in due;
        return None;
      }
      EarliestExists(jobs, due);
      var key :| key in due && forall l :: l in due ==> jobs[key].retryAt <= jobs[l].retryAt;
      jobs := jobs[key := jobs[key].(state := Running(lease, now + LEASE_MS))];
      return Some(key);
    }

    method Run(key: string, booking: nat, outstanding: nat, facts: Facts) returns (reply: Result<Commands.Value>)
      modifies this
      ensures (State(), reply) == Deliver(old(State()), key, booking, outstanding, facts)
    {
      if key in receipts {
        return Commands.Answer(receipts[key], Form(booking));
      }
      if !facts.live {
        return Err(InvalidState);
      }
      if facts.profileComplete == Some(false) {
        return Err(ProfileDataRequired);
      }
      if !facts.issuer {
        return Err(InvoiceIssuerRequired);
      }
      if facts.profileComplete.None? && facts.requisitesMissing && !(booking in bills.current && facts.priorSnapshot) {
        return Err(ProfileDataRequired);
      }
      if !Stands(bills, booking, outstanding) {
        bills := Bills(bills.invoices + [Invoice(booking, outstanding)], bills.current[booking := |bills.invoices|]);
      }
      receipts := receipts[key := Commands.Receipt(Form(booking), bills.current[booking])];
      effects := effects + [Effect(key, booking, outstanding)];
      return Ok(bills.current[booking]);
    }

    /** Runs one job: claims it, delivers it, then completes it or puts it back with a longer wait. */
    method Work(lease: nat, now: nat, outstanding: nat, facts: Facts) returns (claimed: Option<string>)
      modifies this
      ensures claimed.None? ==> State() == old(State())
      ensures claimed.Some? ==>
                && claimed.value in old(jobs) && Claimable(old(jobs)[claimed.value], now)
                && State() == Worked(old(State()), claimed.value, lease, now, outstanding, facts)
    {
      claimed := ClaimNext(lease, now);
      if claimed.None? {
        return;
      }
      var key := claimed.value;
      var attempts := jobs[key].attempts;
      var reply := Run(key, jobs[key].booking, outstanding, facts);
      if reply.Ok? {
        if jobs[key].state.Running? && jobs[key].state.lease == lease {
          jobs := jobs[key := jobs[key].(state := Done)];
        }
      } else if jobs[key].state.Running? && jobs[key].state.lease == lease {
        jobs := jobs[key := jobs[key].(state := Waits, attempts := attempts + 1,
                                       retryAt := now + Backoff(attempts + 1))];
      }
    }
  }

  function Worked(d: Documents, key: string, lease: nat, now: nat, outstanding: nat, facts: Facts): Documents
    requires key in d.jobs
  {
    var taken := Claim(d, key, lease, now);
    var (delivered, reply) := Deliver(taken, key, d.jobs[key].booking, outstanding, facts);
    if reply.Ok? then Complete(delivered, key, lease)
    else Reschedule(delivered, key, lease, d.jobs[key].attempts, now)
  }

  // ---------------------------------------------------------------- what becomes of a job

  /** Jobs, receipts, runs and invoices but for one job. */
  predicate OnlyJob(before: Documents, after: Documents, key: string) {
    && after == before.(jobs := after.jobs) && before.jobs.Keys <= after.jobs.Keys <= before.jobs.Keys + {key}
    && (forall k :: k in before.jobs && k != key ==> after.jobs[k] == before.jobs[k])
  }

  /** A job that is new is there at once for whoever comes first; one that is known stays as it is. */
  lemma Enqueued(d: Documents, k: Key, now: nat)
    ensures var after := Enqueue(d, k, now);
      && OnlyJob(d, after, KeyText(k)) && KeyText(k) in after.jobs
      && (KeyText(k) in d.jobs ==> after == d)
      && (KeyText(k) !in d.jobs ==> after.jobs[KeyText(k)] == Job(k.booking, Waits, 0, now)
                                    && Claimable(after.jobs[KeyText(k)], now))
  {
    hide KeyText;
  }

  /** A claim keeps everybody else away for two minutes, and no longer. */
  lemma ClaimLasts(d: Documents, key: string, lease: nat, now: nat, later: nat)
    requires key in d.jobs
    ensures var after := Claim(d, key, lease, now);
      && OnlyJob(d, after, key) && Holds(after, key, lease)
      && after.jobs[key].booking == d.jobs[key].booking && after.jobs[key].attempts == d.jobs[key].attempts
      && (Claimable(after.jobs[key], later) <==> later > now + 2 * 60000)
  {
  }

  /** When a job may be claimed: when it waits for a time that has come, or its holder has let its lease run out. */
  lemma ClaimableIff(j: Job, now: int)
    ensures Claimable(j, now) <==>
              || (j.state.Waits? && now >= j.retryAt)
              || (j.state.Running? && now > j.state.until)
  {
  }

  /**
   How the invoice command answers: from its receipt; else refused for a booking that is gone or cancelled, a
   profile whose data are not complete, a missing issuer, or missing requisites of a customer without a profile,
   unless the former invoice has them; else with the booking's invoice, which is recorded under the key.
   */
  lemma DeliveryAnswers(d: Documents, key: string, booking: nat, outstanding: nat, facts: Facts)
    ensures var (after, reply) := Deliver(d, key, booking, outstanding, facts);
      if key in d.receipts then
        after == d && reply == if d.receipts[key].form == Form(booking) then Ok(d.receipts[key].result)
                               else Err(IdempotencyConflict)
      else if !facts.live then after == d && reply == Err(InvalidState)
      else if facts.profileComplete == Some(false) then after == d && reply == Err(ProfileDataRequired)
      else if !facts.issuer then after == d && reply == Err(InvoiceIssuerRequired)
      else if facts.profileComplete == None && facts.requisitesMissing && (booking !in d.bills.current || !facts.priorSnapshot)
      then after == d && reply == Err(ProfileDataRequired)
      else
        && booking in after.bills.current && reply == Ok(after.bills.current[booking])
        && after.jobs == d.jobs && after.bills == Issue(d.bills, booking, outstanding)
        && after.effects == d.effects + [Effect(key, booking, outstanding)]
        && after.receipts == d.receipts[key := Commands.Receipt(Form(booking), after.bills.current[booking])]
  {
    hide Form, Issue;
    assert booking in Issue(d.bills, booking, outstanding).current by {
      IssueNames(d.bills, booking, outstanding);
    }
  }

  lemma IssueNames(b: Bills, booking: nat, outstanding: nat)
    ensures booking in Issue(b, booking, outstanding).current
  {
  }

  /** A job that its holder has had delivered is done; one that was refused waits again, longer each time. */
  lemma WorkedIsDone(d: Documents, key: string, lease: nat, now: nat, outstanding: nat, facts: Facts)
    requires key in d.jobs
    ensures var after, reply := Worked(d, key, lease, now, outstanding, facts),
                                Deliver(d, key, d.jobs[key].booking, outstanding, facts).1;
      && key in after.jobs && after.jobs[key].booking == d.jobs[key].booking
      && (forall k :: k in d.jobs && k != key ==> k in after.jobs && after.jobs[k] == d.jobs[k])
      && (reply.Ok? ==> after.jobs[key].state.Done? && key in after.receipts)
      && (reply.Err? ==> after.jobs[key].state.Waits? && after.jobs[key].attempts == d.jobs[key].attempts + 1
                         && after.jobs[key].retryAt == now + Backoff(d.jobs[key].attempts + 1)
                         && after.receipts == d.receipts && after.bills == d.bills)
  {
    hide Form, Issue, Backoff;
  }

  // ---------------------------------------------------------------- any schedule of workers

  /** A worker that has claimed a job, and what its delivery came back with. */
  datatype Worker = Worker(key: string, attempts: nat, reply: Option<Result<Commands.Value>>)

  datatype World = World(now: nat, docs: Documents, workers: map<nat, Worker>, leases: set<nat>)

  datatype Event =
    | Request(job: Key)
    | Take(key: string, lease: nat, seen: nat)
    | Try(lease: nat, outstanding: nat, facts: Facts, lost: bool)
    | Inline(job: Key, outstanding: nat, facts: Facts)
    | Settle(lease: nat)
    | Crash(lease: nat)
    | Wait(ms: nat)

  /** Every claim draws a new lease; the moment `seen` by its query may be old. */
  function Taken(w: World, key: string, lease: nat, seen: nat): World {
    if lease in w.leases || w.now < seen || key !in w.docs.jobs || !Claimable(w.docs.jobs[key], seen) then w
    else w.(docs := Claim(w.docs, key, lease, w.now), leases := w.leases + {lease},
            workers := w.workers[lease := Worker(key, w.docs.jobs[key].attempts, None)])
  }

  /** A worker may lose the reply of a delivery that was committed. */
  function Tried(w: World, lease: nat, outstanding: nat, facts: Facts, lost: bool): World {
    if lease !in w.workers || w.workers[lease].key !in w.docs.jobs then w
    else
      var worker := w.workers[lease];
      var (docs, reply) := Deliver(w.docs, worker.key, w.docs.jobs[worker.key].booking, outstanding, facts);
      w.(docs := docs,
         workers := w.workers[lease := worker.(reply := Some(if lost then Err(Maintenance) else reply))])
  }

  function Settled(w: World, lease: nat): World {
    if lease !in w.workers || w.workers[lease].reply.None? then w
    else
      var worker := w.workers[lease];
      var docs := if worker.reply.value.Ok? then Complete(w.docs, worker.key, lease)
                  else Reschedule(w.docs, worker.key, lease, worker.attempts, w.now);
      w.(docs := docs, workers := w.workers - {lease})
  }

  function Step(w: World, e: Event): World {
    match e
    case Request(job) => w.(docs := Enqueue(w.docs, job, w.now))
    case Take(key, lease, seen) => Taken(w, key, lease, seen)
    case Try(lease, outstanding, facts, lost) => Tried(w, lease, outstanding, facts, lost)
    case Inline(job, outstanding, facts) =>
      w.(docs := Deliver(w.docs, KeyText(job), job.booking, outstanding, facts).0)
    case Settle(lease) => Settled(w, lease)
    case Crash(lease) => w.(workers := w.workers - {lease})
    case Wait(ms) => w.(now := w.now + ms)
  }

  function After(w: World, events: seq<Event>): World {
    if events == [] then w else Step(After(w, events[..|events| - 1]), events[|events| - 1])
  }

  const IDLE := World(0, Documents(map[], map[], [], Bills([], map[])), map[], {})

  // ---------------------------------------------------------------- the invariant

  ghost predicate Named(key: string, booking: nat) {
    exists k: Key :: KeyText(k) == key && k.booking == booking
  }

  lemma NamedOnce(key: string, b: nat, c: nat)
    requires Named(key, b) && Named(key, c)
    ensures b == c
  {
    var k: Key :| KeyText(k) == key && k.booking == b;
    var l: Key :| KeyText(l) == key && l.booking == c;
    KeyInjective(k, l);
  }

  /** Every key has at most one committed run, which its receipt records, always for the same booking. */
  ghost predicate EffectsOk(effects: seq<Effect>, receipts: map<string, Commands.Receipt>) {
    && (forall i, j :: 0 <= i < j < |effects| ==> effects[i].key != effects[j].key)
    && (forall i :: 0 <= i < |effects| ==> effects[i].key in receipts && Named(effects[i].key, effects[i].booking))
    && (forall k :: k in receipts ==>
          exists i :: 0 <= i < |effects| && effects[i].key == k && receipts[k].form == Form(effects[i].booking))
  }

  /** The invoices that exist after delivering each of the runs once, in order. */
  function Billed(effects: seq<Effect>): Bills {
    if effects == [] then Bills([], map[])
    else
      var last := effects[|effects| - 1];
      Issue(Billed(effects[..|effects| - 1]), last.booking, last.outstanding)
  }

  ghost predicate JobsOk(d: Documents) {
    && (forall k :: k in d.jobs ==> Named(k, d.jobs[k].booking))
    && (forall k :: k in d.jobs && d.jobs[k].state.Done? ==> k in d.receipts)
  }

  ghost predicate WorkersOk(w: World) {
    && (forall l :: l in w.workers ==>
          && l in w.leases && w.workers[l].key in w.docs.jobs
          && (w.workers[l].reply.Some? && w.workers[l].reply.value.Ok? ==> w.workers[l].key in w.docs.receipts))
    && (forall k :: k in w.docs.jobs && w.docs.jobs[k].state.Running? ==> w.docs.jobs[k].state.lease in w.leases)
  }

  ghost predicate TimesOk(w: World) {
    forall k :: k in w.docs.jobs ==>
      match w.docs.jobs[k].state
      case Waits => w.docs.jobs[k].retryAt <= w.now + 2560000
      case Running(_, until) => until <= w.now + LEASE_MS
      case Done => true
  }

  ghost predicate Inv(w: World) {
    && EffectsOk(w.docs.effects, w.docs.receipts) && w.docs.bills == Billed(w.docs.effects)
    && JobsOk(w.docs) && WorkersOk(w) && TimesOk(w)
  }

  // ---------------------------------------------------------------- every step keeps it

  lemma {:induction false} BilledOk(effects: seq<Effect>)
    ensures BillsOk(Billed(effects))
  {
    if effects != [] {
      BilledOk(effects[..|effects| - 1]);
    }
  }

  lemma BilledAppend(effects: seq<Effect>, e: Effect)
    ensures Billed(effects + [e]) == Issue(Billed(effects), e.booking, e.outstanding)
  {
    assert (effects + [e])[..|effects|] == effects;
  }

  /** The request that enqueued a job and the worker send the same command, so a receipt never refuses either. */
  lemma ReceiptAnswers(d: Documents, key: string, booking: nat)
    requires EffectsOk(d.effects, d.receipts) && Named(key, booking) && key in d.receipts
    ensures Commands.Answer(d.receipts[key], Form(booking)) == Ok(d.receipts[key].result)
  {
    var i :| 0 <= i < |d.effects| && d.effects[i].key == key && d.receipts[key].form == Form(d.effects[i].booking);
    NamedOnce(key, booking, d.effects[i].booking);
  }

  lemma DeliverKeeps(d: Documents, key: string, booking: nat, outstanding: nat, facts: Facts)
    requires EffectsOk(d.effects, d.receipts) && d.bills == Billed(d.effects) && Named(key, booking)
    ensures var (after, reply) := Deliver(d, key, booking, outstanding, facts);
      && EffectsOk(after.effects, after.receipts) && after.bills == Billed(after.effects) && after.jobs == d.jobs
      && (reply.Ok? ==> key in after.receipts) && (key in d.receipts ==> reply.Ok?)
      && d.receipts.Keys <= after.receipts.Keys
  {
    hide Named, Issue, Form, Billed;
    if key in d.receipts {
      ReceiptAnswers(d, key, booking);
    } else if Refusal(facts, booking in d.bills.current).None? {
      var e := Effect(key, booking, outstanding);
      BilledAppend(d.effects, e);
      var after := Deliver(d, key, booking, outstanding, facts).0;
      assert after.effects[|d.effects|] == e;
      assert forall i :: 0 <= i < |d.effects| ==> after.effects[i] == d.effects[i];
    }
  }

  lemma RequestInv(w: World, job: Key)
    requires Inv(w)
    ensures Inv(Step(w, Request(job)))
  {
    hide EffectsOk, Billed, KeyText;
    if KeyText(job) !in w.docs.jobs {
      assert Named(KeyText(job), job.booking);
    }
    hide Named;
  }

  lemma TakeInv(w: World, key: string, lease: nat, seen: nat)
    requires Inv(w)
    ensures Inv(Step(w, Take(key, lease, seen)))
  {
    hide EffectsOk, Billed, Named;
  }

  lemma TryInv(w: World, lease: nat, outstanding: nat, facts: Facts, lost: bool)
    requires Inv(w)
    ensures Inv(Step(w, Try(lease, outstanding, facts, lost)))
  {
    hide EffectsOk, Billed, Named, Deliver, Form;
    if lease in w.workers && w.workers[lease].key in w.docs.jobs {
      var key := w.workers[lease].key;
      DeliverKeeps(w.docs, key, w.docs.jobs[key].booking, outstanding, facts);
    }
  }

  lemma InlineInv(w: World, job: Key, outstanding: nat, facts: Facts)
    requires Inv(w)
    ensures Inv(Step(w, Inline(job, outstanding, facts)))
  {
    hide EffectsOk, Billed, Deliver, Form, KeyText;
    assert Named(KeyText(job), job.booking);
    hide Named;
    DeliverKeeps(w.docs, KeyText(job), job.booking, outstanding, facts);
  }

  /** What settling does to one job keeps it named, timely, and backed by a receipt when it is done. */
  lemma SettledJob(w: World, lease: nat, key: string)
    requires JobsOk(w.docs) && WorkersOk(w) && TimesOk(w) && key in w.docs.jobs
    ensures var v := Settled(w, lease);
      && key in v.docs.jobs && v.docs.jobs[key].booking == w.docs.jobs[key].booking
      && (v.docs.jobs[key] == w.docs.jobs[key]
          || (v.docs.jobs[key].state.Done? && key in w.docs.receipts)
          || (v.docs.jobs[key].state.Waits? && v.docs.jobs[key].retryAt <= w.now + 2560000))
  {
    hide Named, Backoff;
    if lease in w.workers {
      BackoffBounds(w.workers[lease].attempts + 1);
    }
  }

  lemma SettledRest(w: World, lease: nat)
    ensures var v := Settled(w, lease);
      && v.now == w.now && v.leases == w.leases && v.docs.jobs.Keys == w.docs.jobs.Keys
      && v.docs == w.docs.(jobs := v.docs.jobs) && v.workers == w.workers - (w.workers.Keys - v.workers.Keys)
  {
    hide Backoff;
  }

  lemma SettleInv(w: World, lease: nat)
    requires Inv(w)
    ensures Inv(Step(w, Settle(lease)))
  {
    hide EffectsOk, Billed, Named, Settled;
    SettledRest(w, lease);
    forall key | key in w.docs.jobs ensures
      var v := Settled(w, lease);
      && v.docs.jobs[key].booking == w.docs.jobs[key].booking
      && (v.docs.jobs[key] == w.docs.jobs[key]
          || (v.docs.jobs[key].state.Done? && key in w.docs.receipts)
          || (v.docs.jobs[key].state.Waits? && v.docs.jobs[key].retryAt <= w.now + 2560000))
    {
      SettledJob(w, lease, key);
    }
  }

  lemma OtherInv(w: World, e: Event)
    requires Inv(w) && (e.Crash? || e.Wait?)
    ensures Inv(Step(w, e))
  {
    hide EffectsOk, Billed, Named;
  }

  lemma StepInv(w: World, e: Event)
    requires Inv(w)
    ensures Inv(Step(w, e))
  {
    hide Inv, Step;
    match e
    case Request(job) => RequestInv(w, job);
    case Take(key, lease, seen) => TakeInv(w, key, lease, seen);
    case Try(lease, outstanding, facts, lost) => TryInv(w, lease, outstanding, facts, lost);
    case Inline(job, outstanding, facts) => InlineInv(w, job, outstanding, facts);
    case Settle(lease) => SettleInv(w, lease);
    case _ => OtherInv(w, e);
  }

  lemma {:induction false} RunInv(events: seq<Event>)
    ensures Inv(After(IDLE, events))
  {
    if events != [] {
      RunInv(events[..|events| - 1]);
      hide Inv, Step;
      StepInv(After(IDLE, events[..|events| - 1]), events[|events| - 1]);
    }
  }

  // ---------------------------------------------------------------- the theorems

  function Runs(effects: seq<Effect>, key: string): nat {
    if effects == [] then 0
    else Runs(effects[..|effects| - 1], key) + if effects[|effects| - 1].key == key then 1 else 0
  }

  lemma {:induction false} RunsOnce(effects: seq<Effect>, key: string)
    requires forall i, j :: 0 <= i < j < |effects| ==> effects[i].key != effects[j].key
    ensures Runs(effects, key) == if exists i :: 0 <= i < |effects| && effects[i].key == key then 1 else 0
  {
    if effects != [] {
      RunsOnce(effects[..|effects| - 1], key);
    }
  }

  /**
   In every run, whatever is lost, repeated or raced: a key's command has run at most once, and exactly
   once when its job is done; and the invoices are those of running each of these commands once.
   */
  lemma ExactlyOnce(events: seq<Event>, key: string)
    ensures var d := After(IDLE, events).docs;
      && Runs(d.effects, key) <= 1 && d.bills == Billed(d.effects) && BillsOk(d.bills)
      && (key in d.jobs && d.jobs[key].state.Done? ==> Runs(d.effects, key) == 1)
  {
    RunInv(events);
    hide After, Runs, Billed;
    var d := After(IDLE, events).docs;
    RunsOnce(d.effects, key);
    BilledOk(d.effects);
  }

  /** In every run, a delivery that finds a receipt succeeds with the stored invoice, inline or from the worker. */
  lemma RedeliveryAnswers(events: seq<Event>, job: Key, outstanding: nat, facts: Facts)
    requires KeyText(job) in After(IDLE, events).docs.receipts
    ensures var d := After(IDLE, events).docs;
      Deliver(d, KeyText(job), job.booking, outstanding, facts) == (d, Ok(d.receipts[KeyText(job)].result))
  {
    RunInv(events);
    hide After, KeyText, Form;
    assert Named(KeyText(job), job.booking);
    ReceiptAnswers(After(IDLE, events).docs, KeyText(job), job.booking);
  }

  /** After the last run for a booking, its invoice is for what was outstanding then, unless that was nothing. */
  lemma {:induction false} LastRunRules(effects: seq<Effect>, i: nat)
    requires i < |effects| && forall j :: i < j < |effects| ==> effects[j].booking != effects[i].booking
    ensures var b := Billed(effects);
      && BillsOk(b) && effects[i].booking in b.current
      && (effects[i].outstanding == 0 || b.invoices[b.current[effects[i].booking]].amount == effects[i].outstanding)
    decreases |effects|
  {
    var front, last := effects[..|effects| - 1], effects[|effects| - 1];
    BilledOk(front);
    IssueMeets(Billed(front), last.booking, last.outstanding);
    if i < |effects| - 1 {
      LastRunRules(front, i);
    }
  }

  /** A worker that takes a job, has it accepted and settles while it holds it finishes the job. */
  lemma TakenTriedSettled(w: World, key: string, lease: nat, outstanding: nat, facts: Facts)
    requires lease !in w.leases && key in w.docs.jobs && Claimable(w.docs.jobs[key], w.now)
    requires Deliver(w.docs, key, w.docs.jobs[key].booking, outstanding, facts).1.Ok?
    ensures var v := Step(Step(Step(w, Take(key, lease, w.now)), Try(lease, outstanding, facts, false)), Settle(lease));
      key in v.docs.jobs && v.docs.jobs[key].state.Done? && key in v.docs.receipts && lease !in v.workers
  {
    hide Form, Issue, KeyText, Backoff;
  }

  /** A worker that loses the reply, or crashes, leaves the job to be claimed again once its lease is over. */
  lemma LostIsClaimedAgain(w: World, key: string, lease: nat)
    requires lease !in w.leases && key in w.docs.jobs && Claimable(w.docs.jobs[key], w.now)
    ensures var v := Step(Step(Step(w, Take(key, lease, w.now)), Crash(lease)), Wait(LEASE_MS + 1));
      key in v.docs.jobs && Claimable(v.docs.jobs[key], v.now) && v.docs.receipts == w.docs.receipts
  {
    hide KeyText;
  }

  /** A job that is done stays as it is: no worker claims it again and nothing puts it back. */
  lemma {:induction false} DoneForever(w: World, events: seq<Event>, key: string)
    requires key in w.docs.jobs && w.docs.jobs[key].state.Done?
    ensures key in After(w, events).docs.jobs && After(w, events).docs.jobs[key] == w.docs.jobs[key]
  {
    if events != [] {
      DoneForever(w, events[..|events| - 1], key);
      var before, e := After(w, events[..|events| - 1]), events[|events| - 1];
      hide After, KeyText, Backoff, Form, Issue;
      assert key in Step(before, e).docs.jobs && Step(before, e).docs.jobs[key] == before.docs.jobs[key];
    }
  }

  /** Until its lease runs out, only the worker that holds it can finish a job, put it back, or take it. */
  lemma HolderAlone(w: World, e: Event, key: string)
    requires key in w.docs.jobs && w.docs.jobs[key].state.Running? && w.now <= w.docs.jobs[key].state.until
    requires e != Settle(w.docs.jobs[key].state.lease)
    ensures key in Step(w, e).docs.jobs && Step(w, e).docs.jobs[key] == w.docs.jobs[key]
  {
    hide KeyText, Backoff, Form, Issue;
  }

  /** In every run, a job that is not done is claimable 2560 seconds from now at the latest, if nobody takes it first. */
  lemma NeverStuck(events: seq<Event>, key: string)
    requires key in After(IDLE, events).docs.jobs && !After(IDLE, events).docs.jobs[key].state.Done?
    ensures var w := After(IDLE, events); Claimable(w.docs.jobs[key], w.now + 2560000)
  {
    RunInv(events);
    hide After;
  }
}
