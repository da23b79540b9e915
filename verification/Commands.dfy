/**
 Idempotent commands: a command key runs its body at most once, whatever duplicates, races, crashes and
 retries there are, and every success answers with the stored result.
 */
module Commands {
  import opened Results
  import opened Fingerprint

  /** What a command returns; the content does not matter here. */
  type Value = nat

  datatype Receipt = Receipt(form: Json, result: Value)

  /** The fingerprint of an operation and its payload, as the value whose hash is stored. */
  function CommandForm(operation: string, payload: Json): Json {
    Canonical(Object([Field("operation", Text(operation)), Field("payload", payload)]))
  }

  /** Two commands have one fingerprint exactly when they are one operation with payloads equal up to key order. */
  lemma SameFormIff(o1: string, p1: Json, o2: string, p2: Json)
    requires UniqueKeys(p1) && UniqueKeys(p2)
    ensures CommandForm(o1, p1) == CommandForm(o2, p2) <==> o1 == o2 && SameUpToKeyOrder(p1, p2)
  {
    FormUnique(o1, p1);
    FormUnique(o2, p2);
    var f1, g1 := Field("operation", Text(o1)), Field("payload", p1);
    var f2, g2 := Field("operation", Text(o2)), Field("payload", p2);
    KeysDiffer();
    hide Canonical, UniqueKeys;
    CanonicalIff(Object([f1, g1]), Object([f2, g2]));
    TwoFields(f1, g1, f2, g2);
  }

  lemma KeysDiffer()
    ensures "operation" != "payload"
  {
    assert |"operation"| != |"payload"|;
  }

  lemma TwoFields(f1: Field, g1: Field, f2: Field, g2: Field)
    requires f1.key == f2.key && g1.key == g2.key && f1.key != g1.key
    ensures SameUpToKeyOrder(Object([f1, g1]), Object([f2, g2]))
       <==> SameUpToKeyOrder(f1.value, f2.value) && SameUpToKeyOrder(g1.value, g2.value)
  {
    var fs, gs := [f1, g1], [f2, g2];
    SameObjects(fs, gs);
    hide SameUpToKeyOrder;
    assert forall f :: f in fs <==> f == f1 || f == g1;
    assert forall g :: g in gs <==> g == f2 || g == g2;
    if Matched(fs, gs) {
      assert f1 in fs && g1 in fs;
    }
    if SameField(f1, f2) && SameField(g1, g2) {
      assert f1 in fs && g1 in fs && f2 in gs && g2 in gs;
    }
  }

  ghost predicate Matched(fs: seq<Field>, gs: seq<Field>) {
    && (forall f :: f in fs ==> exists g :: g in gs && SameField(f, g))
    && (forall g :: g in gs ==> exists f :: f in fs && SameField(f, g))
  }

  lemma SameObjects(fs: seq<Field>, gs: seq<Field>)
    ensures SameUpToKeyOrder(Object(fs), Object(gs)) <==> Matched(fs, gs)
  {
    var v, w := Object(fs), Object(gs);
    hide SameField;
  }

  lemma FormUnique(operation: string, payload: Json)
    requires UniqueKeys(payload)
    ensures UniqueKeys(Object([Field("operation", Text(operation)), Field("payload", payload)]))
  {
    assert |"operation"| != |"payload"|;
  }

  // ---------------------------------------------------------------- the command method

  /**
   The receipts of one store. `effects` lists the keys whose body has been committed.
   */
  class CommandStore {
    var receipts: map<string, Receipt>
    var effects: seq<string>
    var writable: bool

    ghost predicate Valid()
      reads this
    {
      Once(receipts, effects)
    }

    constructor ()
      ensures Valid() && receipts == map[] && effects == [] && writable
    {
      receipts, effects, writable := map[], [], true;
    }

    /** A commit of the same key by somebody else, between this call's snapshot and its own insert. */
    method CommitElsewhere(key: string, receipt: Receipt)
      requires Valid() && key !in receipts
      modifies this
      ensures Valid() && receipts == old(receipts)[key := receipt] && effects == old(effects) + [key]
      ensures writable == old(writable)
    {
      OnceMore(receipts, effects, key, receipt);
      receipts := receipts[key := receipt];
      effects := effects + [key];
    }

    /**
     `outcome` is what the body returns if it runs, and `raced` a receipt of the same key that another
     call commits after this call's first snapshot. A duplicate-key error is answered by one more try.
     */
    method Command(key: string, form: Json, outcome: Result<Value>, raced: Option<Receipt>)
      returns (reply: Result<Value>)
      requires Valid()
      modifies this
      ensures Valid() && writable == old(writable)
      ensures key in old(receipts) ==>
                && receipts == old(receipts) && effects == old(effects)
                && reply == Answer(old(receipts)[key], form)
      ensures key !in old(receipts) && (!writable || outcome.Err?) ==>
                receipts == old(receipts) && effects == old(effects) && reply.Err?
      ensures key !in old(receipts) && writable && outcome.Ok? && raced.None? ==>
                && receipts == old(receipts)[key := Receipt(form, outcome.value)]
                && effects == old(effects) + [key] && reply == outcome
      ensures key !in old(receipts) && writable && outcome.Ok? && raced.Some? ==>
                && receipts == old(receipts)[key := raced.value]
                && effects == old(effects) + [key] && reply == Answer(raced.value, form)
    {
      var tries := 0;
      while tries < 2
        invariant 0 <= tries <= 2 && Valid() && writable == old(writable)
        invariant tries == 0 ==> receipts == old(receipts) && effects == old(effects)
        invariant tries > 0 ==>
                    && key !in old(receipts) && writable && outcome.Ok? && raced.Some?
                    && receipts == old(receipts)[key := raced.value] && effects == old(effects) + [key]
        invariant tries < 2
        decreases 2 - tries
      {
        if key in receipts {
          return Answer(receipts[key], form);
        }
        if !writable {
          return Err(Maintenance);
        }
        if outcome.Err? {
          return outcome;
        }
        if raced.Some? {
          CommitElsewhere(key, raced.value);
        }
        if key in receipts {
          tries := tries + 1;
        } else {
          OnceMore(receipts, effects, key, Receipt(form, outcome.value));
          receipts := receipts[key := Receipt(form, outcome.value)];
          effects := effects + [key];
          return outcome;
        }
      }
      return Err(IdempotencyConflict);
    }
  }

  function Answer(receipt: Receipt, form: Json): Result<Value> {
    if receipt.form == form then Ok(receipt.result) else Err(IdempotencyConflict)
  }

  /** A receipt answers with its result, and only the payload it was given for. */
  lemma AnswerIs(receipt: Receipt, form: Json)
    ensures Answer(receipt, form) == Ok(receipt.result) <==> receipt.form == form
    ensures receipt.form != form ==> Answer(receipt, form) == Err(IdempotencyConflict)
  {
  }

  /** Every key with a receipt has taken effect exactly once, and no other key has taken effect. */
  ghost predicate Once(receipts: map<string, Receipt>, effects: seq<string>) {
    && (forall k :: k in effects <==> k in receipts)
    && (forall i, j :: 0 <= i < j < |effects| ==> effects[i] != effects[j])
  }

  lemma OnceMore(receipts: map<string, Receipt>, effects: seq<string>, key: string, receipt: Receipt)
    requires Once(receipts, effects) && key !in receipts
    ensures Once(receipts[key := receipt], effects + [key])
  {
    assert forall i :: 0 <= i < |effects| ==> effects[i] in effects;
  }

  // ---------------------------------------------------------------- any interleaving of calls

  /** A call waits to start a transaction, holds one whose body has run, or has been answered. */
  datatype Call =
    | Waiting(key: string, form: Json, tries: nat)
    | Executed(key: string, form: Json, tries: nat, result: Value)
    | Answered(key: string, form: Json, reply: Result<Value>)

  datatype World = World(
    receipts: map<string, Receipt>, effects: seq<string>, writable: bool, calls: map<nat, Call>)

  datatype Event =
    | Arrive(c: nat, key: string, form: Json)
    | Refuse(c: nat, error: Error)
    | Execute(c: nat, result: Value)
    | Commit(c: nat)
    | Retry(c: nat)
    | Crash(c: nat)
    | Switch(on: bool)

  /** Reads the receipts in a fresh snapshot: answers from a receipt, refuses, or runs the body. */
  function Started(w: World, c: nat, call: Call, ran: Option<Value>, error: Error): World
    requires call.Waiting?
  {
    if call.key in w.receipts then
      w.(calls := w.calls[c := Answered(call.key, call.form, Answer(w.receipts[call.key], call.form))])
    else if !w.writable then w.(calls := w.calls[c := Answered(call.key, call.form, Err(Maintenance))])
    else if ran.Some? then w.(calls := w.calls[c := Executed(call.key, call.form, call.tries, ran.value)])
    else w.(calls := w.calls[c := Answered(call.key, call.form, Err(error))])
  }

  /** The unique key on receipts refuses a second insert; the call then tries once more. */
  function Committed(w: World, c: nat, call: Call): World
    requires call.Executed?
  {
    if call.key !in w.receipts then
      w.(receipts := w.receipts[call.key := Receipt(call.form, call.result)],
         effects := w.effects + [call.key],
         calls := w.calls[c := Answered(call.key, call.form, Ok(call.result))])
    else if call.tries == 0 then w.(calls := w.calls[c := Waiting(call.key, call.form, 1)])
    else w.(calls := w.calls[c := Answered(call.key, call.form, Err(IdempotencyConflict))])
  }

  function Step(w: World, e: Event): World {
    match e
    case Arrive(c, key, form) => if c in w.calls then w else w.(calls := w.calls[c := Waiting(key, form, 0)])
    case Refuse(c, error) => if c in w.calls && w.calls[c].Waiting? then Started(w, c, w.calls[c], None, error) else w
    case Execute(c, result) =>
      if c in w.calls && w.calls[c].Waiting? then Started(w, c, w.calls[c], Some(result), Maintenance) else w
    case Commit(c) => if c in w.calls && w.calls[c].Executed? then Committed(w, c, w.calls[c]) else w
    case Retry(c) =>
      // A write conflict makes the driver run the whole transaction again.
      if c in w.calls && w.calls[c].Executed?
      then w.(calls := w.calls[c := Waiting(w.calls[c].key, w.calls[c].form, w.calls[c].tries)]) else w
    case Crash(c) => w.(calls := w.calls - {c})
    case Switch(on) => w.(writable := on)
  }

  function After(w: World, events: seq<Event>): World {
    if events == [] then w else Step(After(w, events[..|events| - 1]), events[|events| - 1])
  }

  const NOTHING := World(map[], [], true, map[])

  ghost predicate WorldInv(w: World) {
    && Once(w.receipts, w.effects)
    && forall c :: c in w.calls && w.calls[c].Answered? && w.calls[c].reply.Ok? ==>
         && w.calls[c].key in w.receipts
         && w.receipts[w.calls[c].key] == Receipt(w.calls[c].form, w.calls[c].reply.value)
  }

  lemma StepInv(w: World, e: Event)
    requires WorldInv(w)
    ensures WorldInv(Step(w, e))
    ensures forall k :: k in w.receipts ==> k in Step(w, e).receipts && Step(w, e).receipts[k] == w.receipts[k]
    ensures w.effects <= Step(w, e).effects
  {
    if e.Commit? && e.c in w.calls && w.calls[e.c].Executed? && w.calls[e.c].key !in w.receipts {
      var call := w.calls[e.c];
      OnceMore(w.receipts, w.effects, call.key, Receipt(call.form, call.result));
    }
    hide Once;
  }

  lemma {:induction false} RunInv(events: seq<Event>)
    ensures WorldInv(After(NOTHING, events))
  {
    if events != [] {
      RunInv(events[..|events| - 1]);
      hide WorldInv, Step;
      StepInv(After(NOTHING, events[..|events| - 1]), events[|events| - 1]);
    }
  }

  /** In every run, a key takes effect at most once. */
  lemma AtMostOnce(events: seq<Event>, i: nat, j: nat)
    requires var effects := After(NOTHING, events).effects;
      i < |effects| && j < |effects| && effects[i] == effects[j]
    ensures i == j
  {
    RunInv(events);
    hide After;
  }

  /** In every run, all successful answers to a key are the one stored result of one fingerprint. */
  lemma OneAnswer(events: seq<Event>, c: nat, d: nat)
    requires var calls := After(NOTHING, events).calls;
      && c in calls && calls[c].Answered? && calls[c].reply.Ok?
      && d in calls && calls[d].Answered? && calls[d].reply.Ok? && calls[c].key == calls[d].key
    ensures var w := After(NOTHING, events);
      && w.calls[c].reply == w.calls[d].reply && w.calls[c].form == w.calls[d].form
      && w.calls[c].key in w.effects
  {
    RunInv(events);
    hide After;
  }

  /**
   A key that nobody has used takes effect: its call, left alone while writes are on, runs and commits, and is
   answered with what its body returned. While writes are off it is refused, and nothing is written.
   */
  lemma CallTakesEffect(w: World, c: nat, key: string, form: Json, result: Value)
    requires c !in w.calls && key !in w.receipts
    ensures var v := Step(Step(Step(w, Arrive(c, key, form)), Execute(c, result)), Commit(c));
      && c in v.calls
      && (w.writable ==> v.calls[c] == Answered(key, form, Ok(result)) && v.effects == w.effects + [key]
                         && v.receipts == w.receipts[key := Receipt(form, result)])
      && (!w.writable ==> v.calls[c] == Answered(key, form, Err(Maintenance)) && v.effects == w.effects
                          && v.receipts == w.receipts)
  {
  }

  /** A call that loses the race is tried once more, and is then answered from the winner's receipt. */
  lemma LoserAnswered(w: World, c: nat, result: Value)
    requires c in w.calls && w.calls[c].Executed? && w.calls[c].tries == 0 && w.calls[c].key in w.receipts
    ensures var v := Step(Step(w, Commit(c)), Execute(c, result));
      && c in v.calls && v.receipts == w.receipts && v.effects == w.effects
      && v.calls[c] == Answered(w.calls[c].key, w.calls[c].form, Answer(w.receipts[w.calls[c].key], w.calls[c].form))
  {
  }

  /** A call that came after the receipt of its key and has been answered was answered from that receipt. */
  ghost predicate AnsweredFrom(w: World, later: World, c: nat) {
    c !in w.calls && c in later.calls && later.calls[c].key in w.receipts ==>
      match later.calls[c]
      case Waiting(_, _, _) => true
      case Executed(_, _, _, _) => false
      case Answered(key, form, reply) => reply == Answer(w.receipts[key], form)
  }

  lemma StepAnswersFrom(w: World, v: World, e: Event, c: nat)
    requires AnsweredFrom(w, v, c) && (forall k :: k in w.receipts ==> k in v.receipts && v.receipts[k] == w.receipts[k])
    ensures AnsweredFrom(w, Step(v, e), c)
  {
  }

  /**
   Once a key has its receipt, every call of it that arrives later and is answered, in any run with races,
   retries, crashes and pauses of writing, is answered from that receipt: with the stored result when its
   fingerprint is the same, with a conflict when it is not, and never with a refusal because writes are
   paused. The receipt stays, and the key takes effect no more.
   */
  lemma {:induction false} ReplayAnswers(w: World, events: seq<Event>, c: nat)
    requires WorldInv(w) && c !in w.calls
    ensures var later := After(w, events);
      && WorldInv(later) && AnsweredFrom(w, later, c) && w.effects <= later.effects
      && (forall k :: k in w.receipts ==> k in later.receipts && later.receipts[k] == w.receipts[k])
      && (forall i :: |w.effects| <= i < |later.effects| ==> later.effects[i] !in w.receipts)
  {
    if events != [] {
      var rest, last := events[..|events| - 1], events[|events| - 1];
      ReplayAnswers(w, rest, c);
      hide Step, AnsweredFrom;
      StepInv(After(w, rest), last);
      StepAnswersFrom(w, After(w, rest), last, c);
    }
    NoneAgain(w, After(w, events));
  }

  /** Effects are listed once each, so what had its receipt is not listed again. */
  lemma NoneAgain(w: World, later: World)
    requires WorldInv(w) && WorldInv(later) && w.effects <= later.effects
    ensures forall i :: |w.effects| <= i < |later.effects| ==> later.effects[i] !in w.receipts
  {
    assert later.effects[..|w.effects|] == w.effects;
  }
}
