/**
 The ownership fence makes interleaved commands serial: every committed history is a run of the
 sequential machine, so whatever holds in every run holds under concurrency too.

 A commit is assumed to be refused when the fence document has been written since the snapshot, and
 otherwise to apply the transaction's documents to the store. Nothing else is assumed of a commit.
 */
module Serial {
  import opened Results
  import opened Records
  import opened Bookings
  import opened Machine
  import opened Invariants

  /**
   A request reads ahead of its transaction; the transaction then begins with a snapshot, and runs the
   request's command on it. `before` is the serial history up to the snapshot.
   */
  datatype Tx =
    | Prepared(ahead: Ahead)
    | Begun(ahead: Ahead, snapshot: Db, before: seq<Event>)
    | Ran(ahead: Ahead, snapshot: Db, before: seq<Event>, at: nat, command: Command, after: Db)

  datatype World = World(cur: Db, open: map<nat, Tx>, history: seq<Event>)

  /** The stores agree on every collection that commands write. */
  predicate SameDocuments(a: Db, b: Db) {
    b == a.(now := b.now, profiles := b.profiles)
  }

  // ---------------------------------------------------------------- steps

  ghost predicate Prepares(w: World, v: World, t: nat, ahead: Ahead) {
    t !in w.open && ReadAt(ahead, w.cur) && v == w.(open := w.open[t := Prepared(ahead)])
  }

  ghost predicate Begins(w: World, v: World, t: nat) {
    && t in w.open && w.open[t].Prepared?
    && v == w.(open := w.open[t := Begun(w.open[t].ahead, w.cur, w.history)])
  }

  /** A command that is prepared before its transaction brings what its own request has read. */
  predicate Brings(c: Command, ahead: Ahead) {
    c.CreateBooking? || c.ChangeBooking? ==> c.ahead == ahead
  }

  ghost predicate Runs(w: World, v: World, t: nat, c: Command) {
    && t in w.open && w.open[t].Begun?
    && var tx := w.open[t];
       && Brings(c, tx.ahead) && Execute(tx.snapshot.(now := w.cur.now), c).Ok?
       && v == w.(open := w.open[t := Ran(tx.ahead, tx.snapshot, tx.before, w.cur.now, c,
                                          Execute(tx.snapshot.(now := w.cur.now), c).value)])
  }

  /** First committer wins on the fence; the store takes over what the transaction wrote. */
  ghost predicate Commits(w: World, v: World, t: nat, cur: Db) {
    && t in w.open && w.open[t].Ran?
    && var tx := w.open[t];
       && w.cur.fence == tx.snapshot.fence
       && cur.now == w.cur.now && cur.profiles == w.cur.profiles
       && (SameDocuments(w.cur, tx.snapshot) ==> SameDocuments(tx.after, cur))
       && v == World(cur, w.open - {t}, SerialHistory(tx, w))
  }

  ghost predicate Aborts(w: World, v: World, t: nat) {
    v == w.(open := w.open - {t})
  }

  /** The clock, the profiles and the write switch change outside every transaction. */
  ghost predicate Changes(w: World, v: World, e: Event) {
    !e.Run? && v == World(Step(w.cur, e), w.open, w.history + [e])
  }

  ghost predicate Next(w: World, v: World) {
    || (exists t, ahead :: Prepares(w, v, t, ahead))
    || (exists t :: Begins(w, v, t))
    || (exists t, c :: Runs(w, v, t, c))
    || (exists t, cur :: Commits(w, v, t, cur))
    || (exists t :: Aborts(w, v, t))
    || (exists e :: Changes(w, v, e))
  }

  /** The command takes its place right after its snapshot; what happened meanwhile comes after it. */
  function SerialHistory(tx: Tx, w: World): seq<Event>
    requires tx.Ran?
  {
    if tx.before <= w.history && tx.snapshot.now <= tx.at <= w.cur.now then
      tx.before + [Wait(tx.at - tx.snapshot.now), Run(tx.command)]
      + ProfileChanges(w.history[|tx.before|..]) + [Wait(w.cur.now - tx.at)]
    else w.history
  }

  function ProfileChanges(events: seq<Event>): seq<Event> {
    if events == [] then []
    else ProfileChanges(events[..|events| - 1]) + (if events[|events| - 1].SetProfile? then [events[|events| - 1]] else [])
  }

  // ---------------------------------------------------------------- runs

  lemma {:induction false} AfterConcat(db: Db, a: seq<Event>, b: seq<Event>)
    ensures After(db, a + b) == After(After(db, a), b)
  {
    if b == [] {
      assert a + b == a;
    } else {
      assert (a + b)[..|a + b| - 1] == a + b[..|b| - 1];
      AfterConcat(db, a, b[..|b| - 1]);
    }
  }

  /** Neither a command nor a switch of the fence. */
  predicate Quiet(events: seq<Event>) {
    forall i :: 0 <= i < |events| ==> events[i].Wait? || events[i].SetProfile?
  }

  /** Quiet events write no document of a command, and their profile changes alone set the same profiles. */
  lemma {:induction false} QuietRun(db: Db, other: Db, events: seq<Event>)
    requires Quiet(events) && db.profiles == other.profiles
    ensures SameDocuments(db, After(db, events)) && After(db, events).now >= db.now
    ensures var p := After(other, ProfileChanges(events));
      SameDocuments(other, p) && p.now == other.now && p.profiles == After(db, events).profiles
  {
    hide After, Step;
    if events != [] {
      var last, rest := events[|events| - 1], events[..|events| - 1];
      QuietRun(db, other, rest);
      var changes := ProfileChanges(rest);
      QuietStep(After(db, rest), After(other, changes), last);
      AfterLast(db, events);
      if last.SetProfile? {
        assert ProfileChanges(events) == changes + [last];
        assert (changes + [last])[..|changes|] == changes;
        AfterLast(other, changes + [last]);
      } else {
        assert ProfileChanges(events) == changes + [] == changes;
      }
    } else {
      AfterNothing(db);
      AfterNothing(other);
    }
  }

  lemma AfterNothing(db: Db)
    ensures After(db, []) == db
  {
  }

  lemma AfterLast(db: Db, events: seq<Event>)
    requires events != []
    ensures After(db, events) == Step(After(db, events[..|events| - 1]), events[|events| - 1])
  {
    hide Step;
  }

  lemma QuietStep(db: Db, other: Db, e: Event)
    requires e.Wait? || e.SetProfile?
    ensures SameDocuments(db, Step(db, e)) && Step(db, e).now >= db.now
    ensures e.Wait? ==> Step(db, e).profiles == db.profiles
    ensures e.SetProfile? && db.profiles == other.profiles ==>
              && Step(other, e).profiles == Step(db, e).profiles
              && SameDocuments(other, Step(other, e)) && Step(other, e).now == other.now
  {
    hide Execute;
  }

  // ---------------------------------------------------------------- the invariant

  /** What was read ahead may be out of date: less time had passed, and there were fewer demands. */
  predicate Earlier(ahead: Ahead, db: Db) {
    ahead.now <= db.now && ahead.prepay <= db.prepay
  }

  ghost predicate TxOk(tx: Tx, w: World, now: nat) {
    Earlier(tx.ahead, w.cur) && (!tx.Prepared? ==> SnapshotOk(tx, w, now))
  }

  ghost predicate SnapshotOk(tx: Tx, w: World, now: nat)
    requires !tx.Prepared?
  {
    && Earlier(tx.ahead, tx.snapshot)
    && tx.snapshot == After(Empty(now), tx.before) && tx.snapshot.now <= w.cur.now
    && tx.snapshot.fence <= w.cur.fence
    && (tx.snapshot.fence == w.cur.fence ==>
          tx.before <= w.history && Quiet(w.history[|tx.before|..]) && SameDocuments(w.cur, tx.snapshot))
    && (tx.Ran? ==> && tx.snapshot.now <= tx.at <= w.cur.now && Brings(tx.command, tx.ahead)
                    && Execute(tx.snapshot.(now := tx.at), tx.command) == Ok(tx.after))
  }

  /** Every command of the history that was prepared before its transaction read the store at some earlier state. */
  ghost predicate Honest(now: nat, events: seq<Event>) {
    forall i :: 0 <= i < |events| && events[i].Run? ==> ReadsEarlier(events[i].command, After(Empty(now), events[..i]))
  }

  predicate ReadsEarlier(c: Command, db: Db) {
    c.CreateBooking? || c.ChangeBooking? ==> Earlier(c.ahead, db)
  }

  ghost predicate WorldInv(w: World, now: nat) {
    && w.cur == After(Empty(now), w.history) && Honest(now, w.history)
    && forall t :: t in w.open ==> TxOk(w.open[t], w, now)
  }

  /** What happened since the snapshot, replayed after the command, ends in the committed store. */
  lemma ReplayEnds(snapshot: Db, after: Db, rest: seq<Event>, cur: Db)
    requires Quiet(rest) && after.profiles == snapshot.profiles && after.now <= cur.now
    requires SameDocuments(after, cur) && cur.profiles == After(snapshot, rest).profiles
    ensures After(After(after, ProfileChanges(rest)), [Wait(cur.now - after.now)]) == cur
  {
    QuietRun(snapshot, after, rest);
    var replayed := After(after, ProfileChanges(rest));
    var wait := [Wait(cur.now - after.now)];
    assert wait[..0] == [];
    hide After, Execute;
    AfterOne(replayed, wait[0]);
  }

  lemma AfterOne(db: Db, e: Event)
    ensures After(db, [e]) == Step(db, e)
  {
    assert [e][..0] == [];
    hide Execute;
  }

  /** A transaction whose fence nobody wrote commits to the state of its place in the serial history. */
  lemma CommitSerial(w: World, v: World, now: nat, t: nat, cur: Db)
    requires WorldInv(w, now) && Commits(w, v, t, cur)
    ensures v.cur == After(Empty(now), v.history) && v.cur.fence > w.cur.fence
    ensures Honest(now, v.history) && w.cur.prepay <= v.cur.prepay
  {
    hide After, Execute, ProfileChanges, Honest;
    var tx := w.open[t];
    assert TxOk(tx, w, now);
    var rest := w.history[|tx.before|..];
    assert w.history == tx.before + rest;
    ProfilesUntouched(tx.snapshot.(now := tx.at), tx.command);
    var ran := [Wait(tx.at - tx.snapshot.now), Run(tx.command)];
    var changes, wait := ProfileChanges(rest), [Wait(w.cur.now - tx.at)];
    ProfileChangesQuiet(rest);
    assert v.history == tx.before + ran + changes + wait;
    AfterConcat(Empty(now), tx.before, rest);
    AfterConcat(Empty(now), tx.before, ran);
    AfterConcat(Empty(now), tx.before + ran, changes);
    AfterConcat(Empty(now), tx.before + ran + changes, wait);
    RunAt(tx);
    ReplayEnds(tx.snapshot, tx.after, rest, cur);
    CommitHonest(w, now, tx, changes + wait);
    assert v.history == tx.before + ran + (changes + wait);
  }

  lemma CommitHonest(w: World, now: nat, tx: Tx, quiet: seq<Event>)
    requires tx.Ran? && TxOk(tx, w, now) && tx.before <= w.history && Honest(now, w.history)
    requires forall i :: 0 <= i < |quiet| ==> !quiet[i].Run?
    ensures Honest(now, tx.before + [Wait(tx.at - tx.snapshot.now), Run(tx.command)] + quiet)
  {
    hide After, Execute;
    var history := tx.before + [Wait(tx.at - tx.snapshot.now), Run(tx.command)] + quiet;
    forall i | 0 <= i < |history| && history[i].Run?
      ensures ReadsEarlier(history[i].command, After(Empty(now), history[..i]))
    {
      if i < |tx.before| {
        assert history[i] == w.history[i] && history[..i] == w.history[..i];
      } else {
        assert i == |tx.before| + 1;
        assert history[..i] == tx.before + [Wait(tx.at - tx.snapshot.now)];
        AfterConcat(Empty(now), tx.before, [Wait(tx.at - tx.snapshot.now)]);
        AfterOne(tx.snapshot, Wait(tx.at - tx.snapshot.now));
      }
    }
  }

  lemma {:induction false} ProfileChangesQuiet(events: seq<Event>)
    ensures forall i :: 0 <= i < |ProfileChanges(events)| ==> ProfileChanges(events)[i].SetProfile?
  {
    if events != [] {
      ProfileChangesQuiet(events[..|events| - 1]);
    }
  }

  lemma RunAt(tx: Tx)
    requires tx.Ran? && tx.snapshot.now <= tx.at
    requires Execute(tx.snapshot.(now := tx.at), tx.command) == Ok(tx.after)
    ensures After(tx.snapshot, [Wait(tx.at - tx.snapshot.now), Run(tx.command)]) == tx.after
  {
    var wait, run := Wait(tx.at - tx.snapshot.now), Run(tx.command);
    hide Execute;
    assert [wait, run][..1] == [wait];
    assert [wait][..0] == [];
    assert After(tx.snapshot, [wait]) == tx.snapshot.(now := tx.at);
  }

  /** A command changes neither the clock nor the profiles, and counts up the fence. */
  lemma ProfilesUntouched(db: Db, c: Command)
    requires Execute(db, c).Ok?
    ensures var d := Execute(db, c).value;
      d.now == db.now && d.profiles == db.profiles && d.fence == db.fence + 1 && db.prepay <= d.prepay
  {
    hide Body;
    BodyKeepsEnvironment(Fenced(db), c);
  }

  lemma NextInv(w: World, v: World, now: nat)
    requires WorldInv(w, now) && Next(w, v)
    ensures WorldInv(v, now)
  {
    hide After, Execute, SerialHistory, Honest;
    if t, ahead :| Prepares(w, v, t, ahead) {
    } else if t :| Begins(w, v, t) {
    } else if t, c :| Runs(w, v, t, c) {
    } else if t, cur :| Commits(w, v, t, cur) {
      CommitSerial(w, v, now, t, cur);
    } else if t :| Aborts(w, v, t) {
    } else {
      var e :| Changes(w, v, e);
      ChangesInv(w, v, now, e);
    }
  }

  lemma ChangesInv(w: World, v: World, now: nat, e: Event)
    requires WorldInv(w, now) && Changes(w, v, e)
    ensures WorldInv(v, now)
  {
    hide Execute, After, TxOk, Step, Honest;
    assert v.history[..|v.history| - 1] == w.history;
    HonestMore(now, w.history, e);
    AfterLast(Empty(now), v.history);
    forall t | t in v.open ensures TxOk(v.open[t], v, now) {
      ChangesKeepTx(w, v, now, e, v.open[t]);
    }
  }

  lemma ChangesKeepTx(w: World, v: World, now: nat, e: Event, tx: Tx)
    requires Changes(w, v, e) && TxOk(tx, w, now)
    ensures TxOk(tx, v, now)
  {
    hide Execute, After, SnapshotOk, Step;
    OutsideStep(w.cur, e);
    if !tx.Prepared? {
      ChangesKeepSnapshot(w, v, now, e, tx);
    }
  }

  /** What happens outside commands never turns back the clock, the fence or a demand; unfenced, it writes no document. */
  lemma OutsideStep(db: Db, e: Event)
    requires !e.Run?
    ensures var d := Step(db, e);
      && db.now <= d.now && d.prepay == db.prepay && db.fence <= d.fence
      && (d.fence == db.fence ==> (e.Wait? || e.SetProfile?) && SameDocuments(db, d))
  {
    hide Execute;
  }

  lemma ChangesKeepSnapshot(w: World, v: World, now: nat, e: Event, tx: Tx)
    requires Changes(w, v, e) && !tx.Prepared? && SnapshotOk(tx, w, now)
    ensures SnapshotOk(tx, v, now)
  {
    hide Execute, After, Step, Earlier, Brings;
    OutsideStep(w.cur, e);
    if tx.snapshot.fence == v.cur.fence {
      assert v.history[|tx.before|..] == w.history[|tx.before|..] + [e];
    }
  }

  lemma HonestMore(now: nat, events: seq<Event>, e: Event)
    requires Honest(now, events) && !e.Run?
    ensures Honest(now, events + [e])
  {
    hide After;
    forall i | 0 <= i < |events + [e]| && (events + [e])[i].Run?
      ensures ReadsEarlier((events + [e])[i].command, After(Empty(now), (events + [e])[..i]))
    {
      assert (events + [e])[..i] == events[..i];
    }
  }

  ghost predicate Worlds(worlds: seq<World>, now: nat) {
    && |worlds| > 0 && worlds[0] == World(Empty(now), map[], [])
    && forall i :: 0 < i < |worlds| ==> Next(worlds[i - 1], worlds[i])
  }

  /**
   Every interleaving of commands leaves a store that the sequential machine reaches, by the commands in
   the order they committed; so every invariant of sequential runs survives interleaving. A request that
   reads ahead of its transaction keeps what it read, which may be out of date when its command runs.
   */
  lemma {:induction false} InterleavingIsSerial(worlds: seq<World>, now: nat)
    requires Worlds(worlds, now)
    ensures WorldInv(worlds[|worlds| - 1], now)
    ensures Inv(worlds[|worlds| - 1].cur)
  {
    hide Next, Inv, After, TxOk, Honest;
    if |worlds| > 1 {
      InterleavingIsSerial(worlds[..|worlds| - 1], now);
      NextInv(worlds[|worlds| - 2], worlds[|worlds| - 1], now);
    } else {
      NothingRun(now);
    }
    RunInv(now, worlds[|worlds| - 1].history);
  }

  lemma NothingRun(now: nat)
    ensures After(Empty(now), []) == Empty(now) && Honest(now, [])
  {
  }

  /** Pausing writes conflicts with every transaction in flight: none of them commits. */
  lemma PauseStopsInFlight(w: World, v: World, now: nat, on: bool, t: nat)
    requires WorldInv(w, now) && Changes(w, v, SetWritable(on)) && t in w.open
    ensures t in v.open && forall u, cur :: !Commits(v, u, t, cur)
  {
    assert TxOk(w.open[t], w, now);
    hide After, Execute;
  }
}
