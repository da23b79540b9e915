/**
 Interleaved transactions, and why room-day documents alone rule out a double booking.

 A transaction reads a snapshot, runs its body at some later moment, and commits only if no document
 it writes has been written since the snapshot. Here the only documents whose conflicts are assumed to
 be noticed are the bookings and the room-days; what becomes of every other collection is left open.
 The ownership fence, which would make all commands conflict, is not used.
 */
module RoomDays {
  import opened Calendar
  import opened Results
  import opened Segments
  import opened Records
  import opened Machine

  datatype Tx =
    | Begun(snapshot: Db)
    | Ran(snapshot: Db, at: nat, id: nat, after: Db)

  datatype World = World(cur: Db, open: map<nat, Tx>)

  // ---------------------------------------------------------------- steps

  predicate BookingWritten(s: Db, a: Db, id: nat) {
    id in a.bookings && !(id in s.bookings && s.bookings[id] == a.bookings[id])
  }

  /** No document the transaction writes has been written since its snapshot. */
  ghost predicate NoConflict(cur: Db, s: Db, a: Db) {
    && (forall id :: BookingWritten(s, a, id) ==>
          (id in cur.bookings <==> id in s.bookings) && (id in s.bookings ==> cur.bookings[id] == s.bookings[id]))
    && (forall room, day :: Revision(a.roomDays, room, day) != Revision(s.roomDays, room, day) ==>
          Revision(cur.roomDays, room, day) == Revision(s.roomDays, room, day))
  }

  function MergedBookings(cur: Db, s: Db, a: Db): map<nat, Booking> {
    map id | id in cur.bookings.Keys + a.bookings.Keys && (BookingWritten(s, a, id) || id in cur.bookings) ::
      if BookingWritten(s, a, id) then a.bookings[id] else cur.bookings[id]
  }

  function MergedDays(cur: Db, s: Db, a: Db): RoomDays {
    map p: (int, Date) | p in cur.roomDays.Keys + a.roomDays.Keys ::
      if Revision(a.roomDays, p.0, p.1) != Revision(s.roomDays, p.0, p.1) then Revision(a.roomDays, p.0, p.1)
      else Revision(cur.roomDays, p.0, p.1)
  }

  /** The store after a commit; `rest` is whatever the other collections have become. */
  function Merged(cur: Db, s: Db, a: Db, rest: Db): Db {
    rest.(now := cur.now, bookings := MergedBookings(cur, s, a), roomDays := MergedDays(cur, s, a),
          nextBooking := Max(cur.nextBooking, a.nextBooking))
  }

  ghost predicate Next(w: World, v: World) {
    || (exists t: nat :: Begins(w, v, t))
    || (exists t: nat, c :: t in w.open && w.open[t].Begun? && Runs(w, v, t, c))
    || (exists t: nat, rest :: t in w.open && w.open[t].Ran? && Commits(w, v, t, rest))
    || (exists t: nat :: Aborts(w, v, t))
    || (exists ms: nat :: Waits(w, v, ms))
  }

  ghost predicate Begins(w: World, v: World, t: nat) {
    t !in w.open && v == w.(open := w.open[t := Begun(w.cur)])
  }

  ghost predicate Aborts(w: World, v: World, t: nat) {
    v == w.(open := w.open - {t})
  }

  ghost predicate Waits(w: World, v: World, ms: nat) {
    v == w.(cur := w.cur.(now := w.cur.now + ms))
  }

  /** The body of a command runs on the snapshot, at the time it is. */
  ghost predicate Runs(w: World, v: World, t: nat, c: Command)
    requires t in w.open
  {
    var s := w.open[t].snapshot.(now := w.cur.now);
    Body(s, c).Ok? && v == w.(open := w.open[t := Ran(s, w.cur.now, Target(s, c), Body(s, c).value)])
  }

  ghost predicate Commits(w: World, v: World, t: nat, rest: Db)
    requires t in w.open && w.open[t].Ran?
  {
    var tx := w.open[t];
    && NoConflict(w.cur, tx.snapshot, tx.after)
    && v == World(Merged(w.cur, tx.snapshot, tx.after, rest), w.open - {t})
  }

  // ---------------------------------------------------------------- the invariant

  predicate Numbered(db: Db) {
    forall id :: id in db.bookings ==> id < db.nextBooking
  }

  /** A booking that has come to occupy time since the snapshot has left its mark on its room-days. */
  ghost predicate Marked(s: Db, cur: Db, j: nat)
    requires j in cur.bookings
  {
    var b := cur.bookings[j];
    || !BlockingStatus(b.status)
    || (j in s.bookings && SameOccupation(s.bookings[j], b))
    || Locked(s.roomDays, cur.roomDays, b.quote.room, b.quote.segments)
  }

  ghost predicate Behind(s: Db, cur: Db) {
    && s.now <= cur.now && Numbered(s)
    && RevisionsGrow(s.roomDays, cur.roomDays)
    && forall j :: j in cur.bookings ==> Marked(s, cur, j)
  }

  ghost predicate TxOk(tx: Tx, cur: Db) {
    && Behind(tx.snapshot, cur)
    && (tx.Ran? ==> tx.snapshot.now == tx.at && Guarded(tx.snapshot, tx.after, tx.id)
                    && tx.snapshot.nextBooking <= tx.after.nextBooking && Numbered(tx.after))
  }

  ghost predicate WorldInv(w: World) {
    && Numbered(w.cur) && Disjoint(w.cur.bookings, w.cur.now)
    && forall t :: t in w.open ==> TxOk(w.open[t], w.cur)
  }

  lemma BodyNumbers(db: Db, c: Command)
    requires Numbered(db) && Body(db, c).Ok?
    ensures Guarded(db, Body(db, c).value, Target(db, c)) && Numbered(Body(db, c).value)
    ensures db.nextBooking <= Body(db, c).value.nextBooking
  {
    assert db.nextBooking !in db.bookings;
    BodyGuarded(db, c);
    hide Body, Conflict, Locked, RevisionsGrow;
  }

  // ---------------------------------------------------------------- what a merge does

  lemma MergedRevision(cur: Db, s: Db, a: Db, room: int, day: Date)
    ensures Revision(MergedDays(cur, s, a), room, day)
         == if Revision(a.roomDays, room, day) != Revision(s.roomDays, room, day)
            then Revision(a.roomDays, room, day) else Revision(cur.roomDays, room, day)
  {
  }

  /** Room-day revisions only grow, and those the transaction wrote grow over its snapshot's. */
  lemma MergedDaysGrow(cur: Db, s: Db, a: Db)
    requires NoConflict(cur, s, a) && RevisionsGrow(s.roomDays, a.roomDays)
    ensures RevisionsGrow(cur.roomDays, MergedDays(cur, s, a))
  {
    forall room, day ensures Revision(cur.roomDays, room, day) <= Revision(MergedDays(cur, s, a), room, day) {
      MergedRevision(cur, s, a, room, day);
    }
  }

  /** The bookings other than the transaction's own are untouched, and its own is its result. */
  lemma MergedBookingsAt(cur: Db, s: Db, a: Db, id: nat)
    requires Guarded(s, a, id) && NoConflict(cur, s, a)
    ensures var m := MergedBookings(cur, s, a);
      && (forall j :: j != id ==> (j in m <==> j in cur.bookings) && (j in m ==> m[j] == cur.bookings[j]))
      && (BookingWritten(s, a, id) ==> id in m && m[id] == a.bookings[id])
      && (!BookingWritten(s, a, id) ==> (id in m <==> id in cur.bookings) && (id in m ==> m[id] == cur.bookings[id]))
  {
    hide Conflict, Locked, RevisionsGrow;
    assert forall j :: j != id ==> !BookingWritten(s, a, j);
  }

  // ---------------------------------------------------------------- a commit keeps rooms free of overlap

  /** A stored booking the transaction did not see as a conflict is no conflict when it commits. */
  lemma CommitNoClash(cur: Db, s: Db, a: Db, id: nat, j: nat)
    requires Guarded(s, a, id) && NoConflict(cur, s, a) && Behind(s, cur)
    requires id in a.bookings && BookingWritten(s, a, id) && j in cur.bookings && j != id
    requires var b := a.bookings[id];
      && !Conflict(s.bookings, s.now, b.quote.room, b.quote.segments, Some(id))
      && Locked(s.roomDays, a.roomDays, b.quote.room, b.quote.segments)
    ensures !Clash(a.bookings[id], cur.bookings[j], cur.now)
  {
    var b, other := a.bookings[id], cur.bookings[j];
    if Clash(b, other, cur.now) {
      hide Guarded, RevisionsGrow, AnyOverlap, Conflict, Locked, NoConflict;
      assert Marked(s, cur, j);
      if j in s.bookings && SameOccupation(s.bookings[j], other) {
        SeenConflict(s, cur.now, id, b, j, other);
        assert false;
      } else {
        SharedDay(cur, s, a, b, other);
        assert false;
      }
    }
  }

  /** A clash with a booking that has not changed since the snapshot was already there to be seen. */
  lemma SeenConflict(s: Db, later: int, id: nat, b: Booking, j: nat, other: Booking)
    requires j in s.bookings && j != id && SameOccupation(s.bookings[j], other)
    requires s.now <= later && Clash(b, other, later)
    ensures Conflict(s.bookings, s.now, b.quote.room, b.quote.segments, Some(id))
  {
    OverlapSymmetric(b.quote.segments, other.quote.segments);
  }

  /** Two writers of overlapping time have both written the room-day they share. */
  lemma SharedDay(cur: Db, s: Db, a: Db, b: Booking, other: Booking)
    requires b.quote.room == other.quote.room && AnyOverlap(b.quote.segments, other.quote.segments)
    requires Locked(s.roomDays, a.roomDays, b.quote.room, b.quote.segments)
    requires Locked(s.roomDays, cur.roomDays, other.quote.room, other.quote.segments)
    ensures !NoConflict(cur, s, a)
  {
    hide Revision;
    var k, l :| 0 <= k < |b.quote.segments| && 0 <= l < |other.quote.segments|
                && Overlap(b.quote.segments[k], other.quote.segments[l]);
    var day := b.quote.segments[k].date;
    assert Revision(a.roomDays, b.quote.room, day) > Revision(s.roomDays, b.quote.room, day);
    assert Revision(cur.roomDays, b.quote.room, other.quote.segments[l].date)
         > Revision(s.roomDays, b.quote.room, other.quote.segments[l].date);
  }

  /** Committing keeps every pair of blocking bookings of a room apart. */
  lemma CommitDisjoint(cur: Db, s: Db, a: Db, id: nat)
    requires Guarded(s, a, id) && NoConflict(cur, s, a) && Behind(s, cur) && Disjoint(cur.bookings, cur.now)
    ensures Disjoint(MergedBookings(cur, s, a), cur.now)
  {
    var m := MergedBookings(cur, s, a);
    MergedBookingsAt(cur, s, a, id);
    forall i, j | i in m && j in m && i != j ensures !Clash(m[i], m[j], cur.now) {
      if BookingWritten(s, a, id) && (i == id || j == id) {
        CommitPair(cur, s, a, id, if i == id then j else i);
      } else {
        assert !Clash(cur.bookings[i], cur.bookings[j], cur.now);
      }
    }
  }

  lemma CommitPair(cur: Db, s: Db, a: Db, id: nat, j: nat)
    requires Guarded(s, a, id) && NoConflict(cur, s, a) && Behind(s, cur) && Disjoint(cur.bookings, cur.now)
    requires BookingWritten(s, a, id) && j in cur.bookings && j != id
    ensures !Clash(a.bookings[id], cur.bookings[j], cur.now) && !Clash(cur.bookings[j], a.bookings[id], cur.now)
  {
    hide Conflict, Locked, RevisionsGrow, Behind, Overlap;
    var b := a.bookings[id];
    if !BlockingStatus(b.status) {
    } else if id in s.bookings && SameOccupation(s.bookings[id], b) {
      assert cur.bookings[id] == s.bookings[id];
      assert !Clash(cur.bookings[id], cur.bookings[j], cur.now);
      assert !Clash(cur.bookings[j], cur.bookings[id], cur.now);
    } else {
      CommitNoClash(cur, s, a, id, j);
      if Clash(cur.bookings[j], b, cur.now) {
        OverlapSymmetric(cur.bookings[j].quote.segments, b.quote.segments);
      }
    }
  }

  // ---------------------------------------------------------------- other transactions stay behind

  lemma LockedGrows(s: RoomDays, few: RoomDays, many: RoomDays, room: int, segments: seq<Segment>)
    requires Locked(s, few, room, segments) && RevisionsGrow(few, many)
    ensures Locked(s, many, room, segments)
  {
  }

  /** A commit marks what it made occupied, for every transaction still open. */
  lemma CommitMarks(cur: Db, s: Db, a: Db, id: nat, other: Db, merged: Db)
    requires Guarded(s, a, id) && NoConflict(cur, s, a) && Behind(s, cur) && Behind(other, cur)
    requires merged.bookings == MergedBookings(cur, s, a) && merged.roomDays == MergedDays(cur, s, a)
    requires merged.now == cur.now
    ensures Behind(other, merged)
  {
    MergedDaysGrow(cur, s, a);
    MergedBookingsAt(cur, s, a, id);
    forall room, day ensures Revision(other.roomDays, room, day) <= Revision(merged.roomDays, room, day) {
      assert Revision(other.roomDays, room, day) <= Revision(cur.roomDays, room, day);
      assert Revision(cur.roomDays, room, day) <= Revision(merged.roomDays, room, day);
    }
    forall j | j in merged.bookings ensures Marked(other, merged, j) {
      if j == id && BookingWritten(s, a, id) {
        OwnMark(cur, s, a, id, other, merged);
      } else {
        CarriedMark(cur, other, merged, j);
      }
    }
  }

  lemma CarriedMark(cur: Db, other: Db, merged: Db, j: nat)
    requires j in cur.bookings && j in merged.bookings && SameOccupation(cur.bookings[j], merged.bookings[j])
    requires Marked(other, cur, j) && RevisionsGrow(cur.roomDays, merged.roomDays)
    ensures Marked(other, merged, j)
  {
    var b := cur.bookings[j];
    hide Revision, RevisionsGrow, Locked;
    if Locked(other.roomDays, cur.roomDays, b.quote.room, b.quote.segments) {
      LockedGrows(other.roomDays, cur.roomDays, merged.roomDays, b.quote.room, b.quote.segments);
    }
  }

  lemma OwnMark(cur: Db, s: Db, a: Db, id: nat, other: Db, merged: Db)
    requires Guarded(s, a, id) && NoConflict(cur, s, a) && BookingWritten(s, a, id)
    requires Behind(other, cur) && RevisionsGrow(cur.roomDays, merged.roomDays)
    requires merged.roomDays == MergedDays(cur, s, a)
    requires id in merged.bookings && merged.bookings[id] == a.bookings[id]
    ensures Marked(other, merged, id)
  {
    hide Conflict;
    var b := a.bookings[id];
    if BlockingStatus(b.status) {
      if id in s.bookings && SameOccupation(s.bookings[id], b) {
        assert cur.bookings[id] == s.bookings[id];
        CarriedMark(cur, other, merged, id);
      } else {
        forall i | 0 <= i < |b.quote.segments|
          ensures Revision(merged.roomDays, b.quote.room, b.quote.segments[i].date)
                > Revision(other.roomDays, b.quote.room, b.quote.segments[i].date)
        {
          var day := b.quote.segments[i].date;
          MergedRevision(cur, s, a, b.quote.room, day);
          assert Revision(a.roomDays, b.quote.room, day) > Revision(s.roomDays, b.quote.room, day);
          assert Revision(cur.roomDays, b.quote.room, day) == Revision(s.roomDays, b.quote.room, day);
          assert Revision(other.roomDays, b.quote.room, day) <= Revision(cur.roomDays, b.quote.room, day);
        }
        assert Locked(other.roomDays, merged.roomDays, b.quote.room, b.quote.segments);
      }
    }
  }

  // ---------------------------------------------------------------- every interleaving

  lemma NextInv(w: World, v: World)
    requires WorldInv(w) && Next(w, v)
    ensures WorldInv(v)
  {
    if t: nat :| Begins(w, v, t) {
      SelfBehind(w.cur);
    } else if t: nat, c :| t in w.open && w.open[t].Begun? && Runs(w, v, t, c) {
      RunsInv(w, v, t, c);
    } else if t: nat, rest :| t in w.open && w.open[t].Ran? && Commits(w, v, t, rest) {
      CommitsInv(w, v, t, rest);
    } else if t: nat :| Aborts(w, v, t) {
      hide TxOk, Disjoint, Numbered;
    } else {
      var ms: nat :| Waits(w, v, ms);
      WaitsInv(w, v, ms);
    }
  }

  lemma SelfBehind(db: Db)
    requires Numbered(db)
    ensures Behind(db, db)
  {
    hide Revision;
  }

  lemma RunsInv(w: World, v: World, t: nat, c: Command)
    requires WorldInv(w) && t in w.open && w.open[t].Begun? && Runs(w, v, t, c)
    ensures WorldInv(v)
  {
    hide Disjoint, Body, Guarded;
    var snapshot := w.open[t].snapshot;
    assert TxOk(w.open[t], w.cur);
    var s := snapshot.(now := w.cur.now);
    assert Behind(s, w.cur) by { LaterSnapshot(snapshot, s, w.cur); }
    BodyNumbers(s, c);
  }

  lemma LaterSnapshot(snapshot: Db, s: Db, cur: Db)
    requires Behind(snapshot, cur) && s == snapshot.(now := cur.now)
    ensures Behind(s, cur)
  {
    hide RevisionsGrow, Locked;
    forall j | j in cur.bookings ensures Marked(s, cur, j) {
      assert Marked(snapshot, cur, j);
    }
  }

  lemma CommitsInv(w: World, v: World, t: nat, rest: Db)
    requires WorldInv(w) && t in w.open && w.open[t].Ran? && Commits(w, v, t, rest)
    ensures WorldInv(v)
  {
    hide NoConflict, Behind, Guarded, Disjoint, MergedBookings, MergedDays;
    var tx := w.open[t];
    assert TxOk(tx, w.cur);
    CommitDisjoint(w.cur, tx.snapshot, tx.after, tx.id);
    MergedNumbered(w.cur, tx.snapshot, tx.after, tx.id, v.cur);
    forall u | u in v.open ensures TxOk(v.open[u], v.cur) {
      assert TxOk(w.open[u], w.cur);
      CommitMarks(w.cur, tx.snapshot, tx.after, tx.id, w.open[u].snapshot, v.cur);
    }
  }

  lemma MergedNumbered(cur: Db, s: Db, a: Db, id: nat, merged: Db)
    requires Guarded(s, a, id) && NoConflict(cur, s, a) && Numbered(cur) && Numbered(a)
    requires merged.bookings == MergedBookings(cur, s, a) && merged.nextBooking == Max(cur.nextBooking, a.nextBooking)
    ensures Numbered(merged)
  {
    MergedBookingsAt(cur, s, a, id);
    hide Guarded, NoConflict, MergedBookings;
  }

  lemma WaitsInv(w: World, v: World, ms: nat)
    requires WorldInv(w) && Waits(w, v, ms)
    ensures WorldInv(v)
  {
    TimeKeepsDisjoint(w.cur.bookings, w.cur.now, v.cur.now);
    hide Disjoint, Guarded, RevisionsGrow, Locked;
    forall t | t in v.open ensures TxOk(v.open[t], v.cur) {
      assert TxOk(w.open[t], w.cur);
      forall j | j in v.cur.bookings ensures Marked(v.open[t].snapshot, v.cur, j) {
        assert Marked(w.open[t].snapshot, w.cur, j);
      }
    }
  }

  /** A history of interleaved transactions from an empty store. */
  ghost predicate History(worlds: seq<World>) {
    && |worlds| > 0 && worlds[0].open == map[]
    && (exists now: nat :: worlds[0].cur == Empty(now))
    && forall i :: 0 < i < |worlds| ==> Next(worlds[i - 1], worlds[i])
  }

  lemma {:induction false} HistoryInv(worlds: seq<World>)
    requires History(worlds)
    ensures WorldInv(worlds[|worlds| - 1])
  {
    if |worlds| > 1 {
      hide Next, WorldInv;
      HistoryInv(worlds[..|worlds| - 1]);
      NextInv(worlds[|worlds| - 2], worlds[|worlds| - 1]);
    }
  }

  /**
   No committed history contains two overlapping blocking bookings of one room: write skew is ruled out
   by the room-day documents, for a create racing a late payment as for any other two commands.
   */
  lemma NoDoubleBooking(worlds: seq<World>, i: nat, j: nat)
    requires History(worlds)
    requires var db := worlds[|worlds| - 1].cur;
      && i in db.bookings && j in db.bookings && i != j
      && db.bookings[i].quote.room == db.bookings[j].quote.room
      && Blocks(db.bookings[i], db.now) && Blocks(db.bookings[j], db.now)
    ensures var db := worlds[|worlds| - 1].cur;
      !AnyOverlap(db.bookings[i].quote.segments, db.bookings[j].quote.segments)
  {
    HistoryInv(worlds);
    var db := worlds[|worlds| - 1].cur;
    assert !Clash(db.bookings[i], db.bookings[j], db.now);
  }
}
