/**
 Online payments: at most one provider payment per booking, and every result applied once, over lost
 requests, lost replies, crashes, retries, polls and repeated webhooks.

 The provider is assumed to return one payment for one idempotency key during 24 hours from the first
 request it receives, and to leave a succeeded or cancelled payment as it is. A request is assumed to
 reach it within an hour of being sent, or never.
 */
module Gateway {
  import opened Results
  import opened Calendar
  import opened Records

  const SEND_WINDOW := 23 * HOUR_MS
  const KEY_LIFE := 24 * HOUR_MS
  const MAX_DELAY := HOUR_MS

  type Pid = nat

  datatype Outcome = Succeeded | Failed

  // ---------------------------------------------------------------- the documents of the desk

  datatype Intent = Intent(first: nat, amount: nat, attached: Option<Pid>)

  datatype Row = Row(booking: nat, amount: nat, state: PaymentState)

  /** What the provider says of a payment: its amount in minor units of the right currency, if it is in that currency. */
  type Amount = Option<int>

  /** `applied` lists the results whose command has run, `uncertain` the bookings flagged for reconciliation. */
  datatype Desk = Desk(
    intents: map<nat, Intent>, rows: map<Pid, Row>, applied: seq<(Pid, Outcome)>, uncertain: set<nat>)

  function RecordIntent(d: Desk, booking: nat, amount: nat, now: nat): Desk {
    if booking in d.intents then d else d.(intents := d.intents[booking := Intent(now, amount, None)])
  }

  datatype Decision = Poll(pid: Pid) | Reconcile | Send

  /** What `createPayment` does once the intent is there. */
  function Decide(i: Intent, now: nat): Decision {
    if i.attached.Some? then Poll(i.attached.value)
    else if now - i.first >= SEND_WINDOW then Reconcile
    else Send
  }

  /** `attachProviderPayment`: once per payment, and only for the amount of the intent. */
  function Attach(d: Desk, booking: nat, pid: Pid, reported: Amount): Result<Desk> {
    if booking !in d.intents then Ok(d)
    else if reported != Some(d.intents[booking].amount) then Err(PaymentMismatch)
    else if pid in d.rows then Ok(d)
    else
      Ok(d.(rows := d.rows[pid := Row(booking, d.intents[booking].amount, Pending)],
            intents := d.intents[booking := d.intents[booking].(attached := Some(pid))]))
  }

  function ApplyResult(d: Desk, pid: Pid, outcome: Outcome): Desk {
    if pid !in d.rows || (pid, outcome) in d.applied then d
    else
      var row := d.rows[pid];
      var state := if outcome == Succeeded then PaidIn else if row.state == PaidIn then PaidIn else Void;
      d.(rows := d.rows[pid := row.(state := state)], applied := d.applied + [(pid, outcome)])
  }

  /** `checkPayment` of a payment the provider reports as final for `booking`, with this amount. */
  function Check(d: Desk, pid: Pid, booking: nat, outcome: Outcome, reported: Amount): Result<Desk> {
    if pid in d.rows then
      if reported != Some(d.rows[pid].amount) then Err(PaymentMismatch) else Ok(ApplyResult(d, pid, outcome))
    else if booking !in d.intents then Ok(d)
    else if d.intents[booking].attached.Some? && d.intents[booking].attached != Some(pid) then Err(PaymentMismatch)
    else
      var attached :- Attach(d, booking, pid, reported);
      Ok(ApplyResult(attached, pid, outcome))
  }

  /** The payment intents and provider payments of a store, as its methods update them. */
  class PaymentDesk {
    var intents: map<nat, Intent>
    var rows: map<Pid, Row>
    var applied: seq<(Pid, Outcome)>
    var uncertain: set<nat>

    function Documents(): Desk
      reads this
    {
      Desk(intents, rows, applied, uncertain)
    }

    constructor ()
      ensures Documents() == Desk(map[], map[], [], {})
    {
      intents, rows, applied, uncertain := map[], map[], [], {};
    }

    /** Records the intent, and says whether to send a request, to poll, or to ask for reconciliation. */
    method CreatePayment(booking: nat, amount: nat, now: nat) returns (decision: Decision)
      modifies this
      ensures var d := RecordIntent(old(Documents()), booking, amount, now);
        && booking in d.intents && decision == Decide(d.intents[booking], now)
        && Documents() == if decision.Reconcile? then d.(uncertain := d.uncertain + {booking}) else d
    {
      if booking !in intents {
        intents := intents[booking := Intent(now, amount, None)];
      }
      var intent := intents[booking];
      if intent.attached.Some? {
        return Poll(intent.attached.value);
      }
      if now - intent.first >= SEND_WINDOW {
        uncertain := uncertain + {booking};
        return Reconcile;
      }
      return Send;
    }

    /** Refuses an amount or a currency that is not the intent's; called for a booking that has an intent. */
    method AttachProviderPayment(booking: nat, pid: Pid, reported: Amount) returns (r: Result<()>)
      requires booking in intents
      modifies this
      ensures var d := Attach(old(Documents()), booking, pid, reported);
        && (d.Ok? ==> r == Ok(()) && Documents() == d.value)
        && (d.Err? ==> r == Err(d.error) && Documents() == old(Documents()))
    {
      if reported != Some(intents[booking].amount) {
        return Err(PaymentMismatch);
      }
      if pid !in rows {
        rows := rows[pid := Row(booking, intents[booking].amount, Pending)];
        intents := intents[booking := intents[booking].(attached := Some(pid))];
      }
      return Ok(());
    }

    method CheckPayment(pid: Pid, booking: nat, outcome: Outcome, reported: Amount) returns (r: Result<()>)
      modifies this
      ensures var d := Check(old(Documents()), pid, booking, outcome, reported);
        && (d.Ok? ==> r == Ok(()) && Documents() == d.value)
        && (d.Err? ==> r == Err(d.error) && Documents() == old(Documents()))
    {
      if pid !in rows {
        if booking !in intents {
          return Ok(());
        }
        if intents[booking].attached.Some? && intents[booking].attached != Some(pid) {
          return Err(PaymentMismatch);
        }
        r := AttachProviderPayment(booking, pid, reported);
        if r.Err? {
          return;
        }
      }
      if reported != Some(rows[pid].amount) {
        return Err(PaymentMismatch);
      }
      if (pid, outcome) !in applied {
        var row := rows[pid];
        if outcome == Succeeded {
          rows := rows[pid := row.(state := PaidIn)];
        } else if row.state != PaidIn {
          rows := rows[pid := row.(state := Void)];
        } else {
          rows := rows[pid := row];
        }
        applied := applied + [(pid, outcome)];
      }
      return Ok(());
    }
  }

  // ---------------------------------------------------------------- what each step writes

  /** A request goes out as long as no payment is attached and the intent is less than 23 hours old. */
  lemma DecidedBy(d: Desk, booking: nat, amount: nat, now: nat)
    ensures var after := RecordIntent(d, booking, amount, now);
      && booking in after.intents && after == d.(intents := after.intents)
      && (booking in d.intents ==> after == d)
      && (booking !in d.intents ==> after.intents == d.intents[booking := Intent(now, amount, None)])
      && var i := after.intents[booking];
         && (Decide(i, now) == Send <==> i.attached.None? && now < i.first + 23 * 3600000)
         && (Decide(i, now) == Reconcile <==> i.attached.None? && now >= i.first + 23 * 3600000)
         && (i.attached.Some? ==> Decide(i, now) == Poll(i.attached.value))
  {
  }

  /** A payment is attached once, for the amount of the intent, and recorded as pending. */
  lemma AttachWrites(d: Desk, booking: nat, pid: Pid, reported: Amount)
    requires booking in d.intents
    ensures var answer, amount := Attach(d, booking, pid, reported), d.intents[booking].amount;
      if reported != Some(amount) then answer == Err(PaymentMismatch)
      else if pid in d.rows then answer == Ok(d)
      else answer == Ok(d.(rows := d.rows[pid := Row(booking, amount, Pending)],
                           intents := d.intents[booking := Intent(d.intents[booking].first, amount, Some(pid))]))
  {
  }

  /** The row a result leaves: paid by a success, and void by a failure unless it was paid; once for each result. */
  predicate ResultWritten(d: Desk, after: Desk, pid: Pid, outcome: Outcome) {
    if pid !in d.rows then after == d
    else if (pid, outcome) in d.applied then after == d
    else
      && after.applied == d.applied + [(pid, outcome)] && after.intents == d.intents && after.uncertain == d.uncertain
      && after.rows.Keys == d.rows.Keys && (forall p :: p in d.rows && p != pid ==> after.rows[p] == d.rows[p])
      && after.rows[pid].booking == d.rows[pid].booking && after.rows[pid].amount == d.rows[pid].amount
      && (outcome == Succeeded || d.rows[pid].state == PaidIn ==> after.rows[pid].state == PaidIn)
      && (outcome == Failed && d.rows[pid].state != PaidIn ==> after.rows[pid].state == Void)
  }

  /** A final result is taken for a recorded payment of the amount, after attaching one that is not recorded yet. */
  lemma CheckWrites(d: Desk, pid: Pid, booking: nat, outcome: Outcome, reported: Amount)
    ensures var answer := Check(d, pid, booking, outcome, reported);
      if pid in d.rows then
        if reported != Some(d.rows[pid].amount) then answer == Err(PaymentMismatch)
        else answer.Ok? && ResultWritten(d, answer.value, pid, outcome)
      else if booking !in d.intents then answer == Ok(d)
      else if d.intents[booking].attached.Some? && d.intents[booking].attached.value != pid
      then answer == Err(PaymentMismatch)
      else
        var attached := Attach(d, booking, pid, reported);
        if attached.Err? then answer == Err(PaymentMismatch)
        else answer.Ok? && pid in attached.value.rows && ResultWritten(attached.value, answer.value, pid, outcome)
  {
  }

  // ---------------------------------------------------------------- the desk, the wire and the provider

  datatype Request = Request(booking: nat, sentAt: nat)

  datatype ProviderPayment = ProviderPayment(booking: nat, amount: Amount, final: Option<Outcome>)

  datatype KeyRecord = KeyRecord(pid: Pid, at: nat)

  datatype World = World(
    now: nat, desk: Desk, sent: set<Request>,
    payments: map<Pid, ProviderPayment>, keys: map<nat, KeyRecord>)

  datatype Event =
    | Create(booking: nat, amount: nat)
    | Receive(request: Request, created: Pid, reported: Amount)
    | Reply(pid: Pid)
    | Finish(pid: Pid, outcome: Outcome)
    | Poke(pid: Pid)
    | Wait(ms: nat)

  /** The provider answers a key it still knows with the payment it has made for it. */
  function Received(w: World, r: Request, created: Pid, reported: Amount): World {
    if r.booking in w.keys && w.now - w.keys[r.booking].at < KEY_LIFE then w
    else if created in w.payments then w
    else w.(payments := w.payments[created := ProviderPayment(r.booking, reported, None)],
            keys := w.keys[r.booking := KeyRecord(created, w.now)])
  }

  function Created(w: World, booking: nat, amount: nat): World {
    var d := RecordIntent(w.desk, booking, amount, w.now);
    if booking in d.intents && Decide(d.intents[booking], w.now) == Send
    then w.(desk := d, sent := w.sent + {Request(booking, w.now)})
    else w.(desk := d)
  }

  /** A refused result leaves the desk as it is. */
  function Kept(w: World, d: Result<Desk>): World {
    match d case Ok(desk) => w.(desk := desk) case Err(_) => w
  }

  /**
   A request may be received late or never, and more than once; a reply may be seen late, never or twice;
   a webhook, a poll or a worker may check any payment at any time.
   */
  function Step(w: World, e: Event): World {
    match e
    case Create(booking, amount) => Created(w, booking, amount)
    case Receive(r, created, reported) =>
      if r in w.sent && w.now < r.sentAt + MAX_DELAY then Received(w, r, created, reported) else w
    case Reply(pid) =>
      if pid in w.payments then Kept(w, Attach(w.desk, w.payments[pid].booking, pid, w.payments[pid].amount)) else w
    case Finish(pid, outcome) =>
      if pid in w.payments && w.payments[pid].final.None?
      then w.(payments := w.payments[pid := w.payments[pid].(final := Some(outcome))]) else w
    case Poke(pid) =>
      if pid in w.payments && w.payments[pid].final.Some? then
        Kept(w, Check(w.desk, pid, w.payments[pid].booking, w.payments[pid].final.value, w.payments[pid].amount))
      else w
    case Wait(ms) => w.(now := w.now + ms)
  }

  function After(w: World, events: seq<Event>): World {
    if events == [] then w else Step(After(w, events[..|events| - 1]), events[|events| - 1])
  }

  function Start(now: nat): World {
    World(now, Desk(map[], map[], [], {}), {}, map[], map[])
  }

  // ---------------------------------------------------------------- the invariant

  /** Requests are sent only within 23 hours of the first. */
  ghost predicate RequestsTimely(w: World) {
    && (forall b :: b in w.desk.intents ==> w.desk.intents[b].first <= w.now)
    && (forall r :: r in w.sent ==>
          && r.booking in w.desk.intents && r.sentAt <= w.now
          && w.desk.intents[r.booking].first <= r.sentAt < w.desk.intents[r.booking].first + SEND_WINDOW)
  }

  /** Every payment at the provider is the one its booking's key stands for. */
  ghost predicate OnePerKey(w: World) {
    && (forall b :: b in w.keys ==>
          && b in w.desk.intents && w.desk.intents[b].first <= w.keys[b].at <= w.now
          && w.keys[b].pid in w.payments && w.payments[w.keys[b].pid].booking == b)
    && (forall p :: p in w.payments ==>
          w.payments[p].booking in w.keys && w.keys[w.payments[p].booking].pid == p)
  }

  /** The desk has attached to a booking only that payment, and knows it as that booking's. */
  ghost predicate DeskOk(w: World) {
    && (forall p :: p in w.desk.rows ==>
          && p in w.payments && w.payments[p].booking == w.desk.rows[p].booking
          && w.desk.rows[p].booking in w.desk.intents
          && w.desk.intents[w.desk.rows[p].booking].attached == Some(p)
          && w.desk.rows[p].amount == w.desk.intents[w.desk.rows[p].booking].amount
          && w.payments[p].amount == Some(w.desk.rows[p].amount))
    && (forall b :: b in w.desk.intents && w.desk.intents[b].attached.Some? ==>
          w.desk.intents[b].attached.value in w.desk.rows
          && w.desk.rows[w.desk.intents[b].attached.value].booking == b)
  }

  /** Results are applied once each, and only as the provider finally reported them. */
  ghost predicate ResultsOk(w: World) {
    && (forall i, j :: 0 <= i < j < |w.desk.applied| ==> w.desk.applied[i] != w.desk.applied[j])
    && (forall i :: 0 <= i < |w.desk.applied| ==>
          && w.desk.applied[i].0 in w.payments && w.payments[w.desk.applied[i].0].final == Some(w.desk.applied[i].1)
          && w.desk.applied[i].0 in w.desk.rows)
    && (forall p :: p in w.desk.rows ==>
          && (w.desk.rows[p].state == PaidIn <==> (p, Succeeded) in w.desk.applied)
          && (w.desk.rows[p].state == Void <==> (p, Failed) in w.desk.applied))
  }

  ghost predicate Inv(w: World) {
    RequestsTimely(w) && OnePerKey(w) && DeskOk(w) && ResultsOk(w)
  }

  /** While requests are timely, the provider still knows the key of every request it receives. */
  lemma KeyStillKnown(w: World, r: Request)
    requires RequestsTimely(w) && OnePerKey(w) && r in w.sent && w.now < r.sentAt + MAX_DELAY && r.booking in w.keys
    ensures w.now - w.keys[r.booking].at < KEY_LIFE
  {
  }

  lemma ReceiveKeys(w: World, r: Request, created: Pid, reported: Amount)
    requires RequestsTimely(w) && OnePerKey(w) && r in w.sent && w.now < r.sentAt + MAX_DELAY
    ensures OnePerKey(Received(w, r, created, reported))
  {
    if r.booking in w.keys {
      KeyStillKnown(w, r);
    }
  }

  lemma ReceiveDesk(w: World, r: Request, created: Pid, reported: Amount)
    requires DeskOk(w) && ResultsOk(w)
    ensures DeskOk(Received(w, r, created, reported)) && ResultsOk(Received(w, r, created, reported))
  {
  }

  lemma ReceiveInv(w: World, r: Request, created: Pid, reported: Amount)
    requires Inv(w)
    ensures Inv(Step(w, Receive(r, created, reported)))
  {
    hide OnePerKey, DeskOk, ResultsOk;
    if r in w.sent && w.now < r.sentAt + MAX_DELAY {
      ReceiveKeys(w, r, created, reported);
      ReceiveDesk(w, r, created, reported);
    }
  }

  lemma CreateTimely(w: World, booking: nat, amount: nat)
    requires RequestsTimely(w)
    ensures RequestsTimely(Created(w, booking, amount))
  {
  }

  lemma CreateKeys(w: World, booking: nat, amount: nat)
    requires RequestsTimely(w) && OnePerKey(w)
    ensures OnePerKey(Created(w, booking, amount))
  {
    hide RequestsTimely;
  }

  lemma CreateDesk(w: World, booking: nat, amount: nat)
    requires DeskOk(w)
    ensures DeskOk(Created(w, booking, amount))
  {
  }

  lemma CreateResults(w: World, booking: nat, amount: nat)
    requires ResultsOk(w)
    ensures ResultsOk(Created(w, booking, amount))
  {
  }

  lemma CreateInv(w: World, booking: nat, amount: nat)
    requires Inv(w)
    ensures Inv(Step(w, Create(booking, amount)))
  {
    hide RequestsTimely, OnePerKey, DeskOk, ResultsOk, Created;
    CreateTimely(w, booking, amount);
    CreateKeys(w, booking, amount);
    CreateDesk(w, booking, amount);
    CreateResults(w, booking, amount);
  }

  lemma WaitInv(w: World, ms: nat)
    requires Inv(w)
    ensures Inv(Step(w, Wait(ms)))
  {
  }

  lemma FinishKeys(w: World, pid: Pid, outcome: Outcome)
    requires RequestsTimely(w) && OnePerKey(w) && DeskOk(w)
    ensures var v := Step(w, Finish(pid, outcome)); RequestsTimely(v) && OnePerKey(v) && DeskOk(v)
  {
    hide ResultsOk;
  }

  lemma FinishResults(w: World, pid: Pid, outcome: Outcome)
    requires ResultsOk(w)
    ensures ResultsOk(Step(w, Finish(pid, outcome)))
  {
  }

  lemma FinishInv(w: World, pid: Pid, outcome: Outcome)
    requires Inv(w)
    ensures Inv(Step(w, Finish(pid, outcome)))
  {
    hide RequestsTimely, OnePerKey, DeskOk, ResultsOk, Step;
    FinishKeys(w, pid, outcome);
    FinishResults(w, pid, outcome);
  }

  lemma AttachDesk(w: World, pid: Pid)
    requires RequestsTimely(w) && OnePerKey(w) && DeskOk(w) && pid in w.payments
    ensures var v := Kept(w, Attach(w.desk, w.payments[pid].booking, pid, w.payments[pid].amount));
      RequestsTimely(v) && OnePerKey(v) && DeskOk(v)
  {
    hide ResultsOk;
    var b := w.payments[pid].booking;
    if pid !in w.desk.rows && b in w.desk.intents && w.desk.intents[b].attached.Some? {
      // The attached payment is of the same booking, so it is the same payment.
      assert false;
    }
  }

  lemma AttachResults(w: World, pid: Pid)
    requires ResultsOk(w) && pid in w.payments
    ensures ResultsOk(Kept(w, Attach(w.desk, w.payments[pid].booking, pid, w.payments[pid].amount)))
  {
  }

  lemma AttachInv(w: World, pid: Pid)
    requires Inv(w) && pid in w.payments
    ensures Inv(Kept(w, Attach(w.desk, w.payments[pid].booking, pid, w.payments[pid].amount)))
  {
    hide RequestsTimely, OnePerKey, DeskOk, ResultsOk, Attach;
    AttachDesk(w, pid);
    AttachResults(w, pid);
  }

  lemma ApplyDesk(w: World, pid: Pid, outcome: Outcome)
    requires RequestsTimely(w) && OnePerKey(w) && DeskOk(w)
    ensures var v := w.(desk := ApplyResult(w.desk, pid, outcome)); RequestsTimely(v) && OnePerKey(v) && DeskOk(v)
  {
    hide ResultsOk;
  }

  lemma ApplyResults(w: World, pid: Pid, outcome: Outcome)
    requires ResultsOk(w) && pid in w.payments && w.payments[pid].final == Some(outcome)
    ensures ResultsOk(w.(desk := ApplyResult(w.desk, pid, outcome)))
  {
    if pid in w.desk.rows && (pid, outcome) !in w.desk.applied {
      var v := w.(desk := ApplyResult(w.desk, pid, outcome));
      NeverBoth(w, pid, outcome);
      assert forall p, o :: (p, o) in v.desk.applied <==> (p, o) in w.desk.applied || (p == pid && o == outcome);
    }
  }

  lemma ApplyInv(w: World, pid: Pid, outcome: Outcome)
    requires Inv(w) && pid in w.payments && w.payments[pid].final == Some(outcome)
    ensures Inv(w.(desk := ApplyResult(w.desk, pid, outcome)))
  {
    hide RequestsTimely, OnePerKey, DeskOk, ResultsOk, ApplyResult;
    ApplyDesk(w, pid, outcome);
    ApplyResults(w, pid, outcome);
  }

  /** A payment with one final status has no result of the other kind. */
  lemma NeverBoth(w: World, pid: Pid, outcome: Outcome)
    requires ResultsOk(w) && pid in w.payments && w.payments[pid].final == Some(outcome)
    ensures forall o :: (pid, o) in w.desk.applied ==> o == outcome
  {
  }

  lemma StepInv(w: World, e: Event)
    requires Inv(w)
    ensures Inv(Step(w, e))
  {
    hide Inv;
    match e
    case Create(booking, amount) => CreateInv(w, booking, amount);
    case Receive(r, created, reported) => ReceiveInv(w, r, created, reported);
    case Reply(pid) => ReplyInv(w, pid);
    case Finish(pid, outcome) => FinishInv(w, pid, outcome);
    case Poke(pid) => PokeInv(w, pid);
    case Wait(ms) => WaitInv(w, ms);
  }

  lemma ReplyInv(w: World, pid: Pid)
    requires Inv(w)
    ensures Inv(Step(w, Reply(pid)))
  {
    hide Inv, Attach;
    if pid in w.payments {
      AttachInv(w, pid);
    }
  }

  lemma PokeInv(w: World, pid: Pid)
    requires Inv(w)
    ensures Inv(Step(w, Poke(pid)))
  {
    hide Inv, Attach, ApplyResult;
    if pid in w.payments && w.payments[pid].final.Some? {
      var b, outcome, amount := w.payments[pid].booking, w.payments[pid].final.value, w.payments[pid].amount;
      if pid in w.desk.rows {
        ApplyInv(w, pid, outcome);
      } else {
        AttachInv(w, pid);
        ApplyInv(Kept(w, Attach(w.desk, b, pid, amount)), pid, outcome);
      }
    }
  }

  lemma {:induction false} RunInv(now: nat, events: seq<Event>)
    ensures Inv(After(Start(now), events))
  {
    if events != [] {
      RunInv(now, events[..|events| - 1]);
      hide Inv, Step;
      StepInv(After(Start(now), events[..|events| - 1]), events[|events| - 1]);
    }
  }

  // ---------------------------------------------------------------- the theorems

  /** In every run, a booking has at most one payment at the provider, and at most one attached. */
  lemma OnePaymentPerBooking(now: nat, events: seq<Event>, p: Pid, q: Pid)
    ensures var w := After(Start(now), events);
      && (p in w.payments && q in w.payments && w.payments[p].booking == w.payments[q].booking ==> p == q)
      && (p in w.desk.rows && q in w.desk.rows && w.desk.rows[p].booking == w.desk.rows[q].booking ==> p == q)
  {
    RunInv(now, events);
    hide After;
  }

  /** A payment is recorded as paid exactly when its success was applied, and then the provider has it as succeeded. */
  lemma PaidMeansSucceeded(now: nat, events: seq<Event>, p: Pid)
    requires p in After(Start(now), events).desk.rows
    ensures var w := After(Start(now), events);
      && (w.desk.rows[p].state == PaidIn <==> (p, Succeeded) in w.desk.applied)
      && (w.desk.rows[p].state == PaidIn ==> p in w.payments && w.payments[p].final == Some(Succeeded))
  {
    RunInv(now, events);
    hide After;
  }

  /** In every run, a recorded payment is for the amount of its booking's intent, as the provider reports it. */
  lemma RecordedAsIntended(now: nat, events: seq<Event>, p: Pid)
    requires p in After(Start(now), events).desk.rows
    ensures var w := After(Start(now), events);
      && w.desk.rows[p].booking in w.desk.intents && p in w.payments
      && w.payments[p].amount == Some(w.desk.rows[p].amount)
      && w.desk.rows[p].amount == w.desk.intents[w.desk.rows[p].booking].amount
  {
    RunInv(now, events);
    hide After;
  }

  /** In every run, each payment has at most one applied result, and no result is applied twice. */
  lemma ResultsOnce(now: nat, events: seq<Event>, i: nat, j: nat)
    requires var applied := After(Start(now), events).desk.applied;
      i < |applied| && j < |applied| && applied[i].0 == applied[j].0
    ensures i == j
  {
    RunInv(now, events);
    hide After;
    var w := After(Start(now), events);
    assert w.desk.applied[i] == w.desk.applied[j];
  }

  /** Once the provider has a final status, one look at it settles the payment, whatever was lost before. */
  lemma LookSettles(now: nat, events: seq<Event>, p: Pid)
    requires var w := After(Start(now), events);
      && p in w.payments && w.payments[p].final.Some?
      && w.payments[p].booking in w.desk.intents
      && w.payments[p].amount == Some(w.desk.intents[w.payments[p].booking].amount)
    ensures var w := After(Start(now), events);
      var v := Step(w, Poke(p));
      && p in v.desk.rows && (p, w.payments[p].final.value) in v.desk.applied
      && v.desk.rows[p].state == (if w.payments[p].final.value == Succeeded then PaidIn else Void)
  {
    RunInv(now, events);
    hide After;
  }

  /** A recorded paid payment never becomes unpaid, whatever happens next. */
  lemma {:induction false} PaidStaysPaid(w: World, events: seq<Event>, p: Pid)
    requires Inv(w) && p in w.desk.rows && w.desk.rows[p].state == PaidIn
    ensures var v := After(w, events);
      Inv(v) && p in v.desk.rows && v.desk.rows[p] == w.desk.rows[p]
  {
    if events != [] {
      PaidStaysPaid(w, events[..|events| - 1], p);
      hide Inv, After;
      var before, e := After(w, events[..|events| - 1]), events[|events| - 1];
      StepInv(before, e);
      StepKeepsPaid(before, e, p);
      AfterLast(w, events);
    }
  }

  lemma AfterLast(w: World, events: seq<Event>)
    requires events != []
    ensures After(w, events) == Step(After(w, events[..|events| - 1]), events[|events| - 1])
  {
    hide Step;
  }

  lemma StepKeepsPaid(w: World, e: Event, p: Pid)
    requires p in w.desk.rows && w.desk.rows[p].state == PaidIn
    ensures p in Step(w, e).desk.rows && Step(w, e).desk.rows[p] == w.desk.rows[p]
  {
  }
}
