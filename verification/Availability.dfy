/** The availability grid of a room and day, and why it agrees with the conflict check. */
module Availability {
  import opened Calendar
  import opened Results
  import opened Segments
  import opened Catalog
  import opened Records
  import Machine
  import Invariants

  datatype SlotState = Free | ShutOff | OnHold | PaidFor | Reserved

  /** A busy stretch of the day, and how it is shown. */
  datatype Range = Range(start: int, end: int, state: SlotState, holdUntil: Option<int>)

  datatype Slot = Slot(start: int, end: int, state: SlotState, holdUntil: Option<int>)

  // ---------------------------------------------------------------- busy ranges

  function StateOf(b: Booking): SlotState {
    if b.status == Blocked then ShutOff
    else if b.status == Hold then OnHold
    else if b.payment == Paid then PaidFor
    else Reserved
  }

  function RangesOf(b: Booking, segments: seq<Segment>, date: Date): seq<Range> {
    if segments == [] then []
    else
      var last := segments[|segments| - 1];
      RangesOf(b, segments[..|segments| - 1], date)
      + if last.date == date then [Range(last.start, last.end, StateOf(b), b.expiresAt)] else []
  }

  /** The ranges of one day, of the bookings in `rows` that block. */
  function DayRanges(rows: seq<Booking>, date: Date, now: int): seq<Range> {
    if rows == [] then []
    else
      var last := rows[|rows| - 1];
      DayRanges(rows[..|rows| - 1], date, now)
      + if Blocks(last, now) then RangesOf(last, last.quote.segments, date) else []
  }

  predicate Hits(r: Range, start: int, end: int) {
    start < r.end && end > r.start
  }

  predicate AnyHit(ranges: seq<Range>, start: int, end: int) {
    exists i :: 0 <= i < |ranges| && Hits(ranges[i], start, end)
  }

  lemma AnyHitConcat(a: seq<Range>, b: seq<Range>, start: int, end: int)
    ensures AnyHit(a + b, start, end) <==> AnyHit(a, start, end) || AnyHit(b, start, end)
  {
    if AnyHit(a, start, end) {
      var i :| 0 <= i < |a| && Hits(a[i], start, end);
      assert Hits((a + b)[i], start, end);
    }
    if AnyHit(b, start, end) {
      var i :| 0 <= i < |b| && Hits(b[i], start, end);
      assert Hits((a + b)[|a| + i], start, end);
    }
  }

  lemma {:induction false} RangesOfIff(b: Booking, segments: seq<Segment>, date: Date, start: int, end: int)
    ensures AnyHit(RangesOf(b, segments, date), start, end) <==> AnyOverlap(segments, [Segment(date, start, end)])
  {
    if segments != [] {
      var front, last := segments[..|segments| - 1], segments[|segments| - 1];
      RangesOfIff(b, front, date, start, end);
      var own := if last.date == date then [Range(last.start, last.end, StateOf(b), b.expiresAt)] else [];
      AnyHitConcat(RangesOf(b, front, date), own, start, end);
      assert AnyHit(own, start, end) <==> Overlap(last, Segment(date, start, end)) by {
        if last.date == date {
          assert Hits(own[0], start, end) <==> Overlap(last, Segment(date, start, end));
        }
      }
      LastOverlap(segments, Segment(date, start, end));
    }
  }

  lemma LastOverlap(segments: seq<Segment>, s: Segment)
    requires segments != []
    ensures AnyOverlap(segments, [s])
       <==> AnyOverlap(segments[..|segments| - 1], [s]) || Overlap(segments[|segments| - 1], s)
  {
    var front := segments[..|segments| - 1];
    if AnyOverlap(segments, [s]) {
      var i, j :| 0 <= i < |segments| && 0 <= j < |[s]| && Overlap(segments[i], [s][j]);
      assert i < |front| ==> Overlap(front[i], [s][0]);
    }
    if AnyOverlap(front, [s]) {
      var i, j :| 0 <= i < |front| && 0 <= j < |[s]| && Overlap(front[i], [s][j]);
      assert Overlap(segments[i], [s][0]);
    }
    if Overlap(segments[|segments| - 1], s) {
      assert Overlap(segments[|segments| - 1], [s][0]);
    }
  }

  predicate Busy(b: Booking, now: int, s: Segment) {
    Blocks(b, now) && AnyOverlap(b.quote.segments, [s])
  }

  /** A stretch of the day is hit exactly when some blocking booking overlaps it. */
  lemma {:induction false} DayRangesIff(rows: seq<Booking>, date: Date, now: int, start: int, end: int)
    ensures AnyHit(DayRanges(rows, date, now), start, end)
       <==> exists i :: 0 <= i < |rows| && Busy(rows[i], now, Segment(date, start, end))
  {
    if rows != [] {
      var front, last := rows[..|rows| - 1], rows[|rows| - 1];
      DayRangesIff(front, date, now, start, end);
      RangesOfIff(last, last.quote.segments, date, start, end);
      var own := if Blocks(last, now) then RangesOf(last, last.quote.segments, date) else [];
      assert !Blocks(last, now) ==> !AnyHit(own, start, end);
      hide AnyHit, Blocks, AnyOverlap;
      AnyHitConcat(DayRanges(front, date, now), own, start, end);
      assert forall i :: 0 <= i < |front| ==> rows[i] == front[i];
    }
  }

  // ---------------------------------------------------------------- the grid

  function FirstHit(ranges: seq<Range>, start: int, end: int): (hit: Option<Range>) {
    if ranges == [] then None
    else if Hits(ranges[0], start, end) then Some(ranges[0])
    else FirstHit(ranges[1..], start, end)
  }

  /** It is the first range that hits the stretch, and there is none only when none hits. */
  lemma {:induction false} FirstHitIs(ranges: seq<Range>, start: int, end: int)
    ensures FirstHit(ranges, start, end).None? ==> !AnyHit(ranges, start, end)
    ensures FirstHit(ranges, start, end).Some? ==>
              exists i :: 0 <= i < |ranges| && ranges[i] == FirstHit(ranges, start, end).value
                          && Hits(ranges[i], start, end) && !AnyHit(ranges[..i], start, end)
  {
    if ranges != [] {
      if Hits(ranges[0], start, end) {
        assert ranges[..0] == [];
      } else {
        var rest := ranges[1..];
        FirstHitIs(rest, start, end);
        AnyHitConcat([ranges[0]], rest, start, end);
        assert ranges == [ranges[0]] + rest;
        if FirstHit(rest, start, end).Some? {
          var i :| 0 <= i < |rest| && rest[i] == FirstHit(rest, start, end).value
            && Hits(rest[i], start, end) && !AnyHit(rest[..i], start, end);
          AnyHitConcat([ranges[0]], rest[..i], start, end);
          assert ranges[..i + 1] == [ranges[0]] + rest[..i];
          assert ranges[i + 1] == rest[i];
        }
      }
    }
  }

  predicate Shows(s: Slot, ranges: seq<Range>) {
    match FirstHit(ranges, s.start, s.end)
    case None => s.state == Free && s.holdUntil == None
    case Some(r) => s.state == r.state && s.holdUntil == r.holdUntil
  }

  /** The slots lie end to end from `from`, each a step long or cut off at the end of the day. */
  predicate Row(slots: seq<Slot>, from: int, dayEnd: int, step: int) {
    && (slots != [] ==> slots[0].start == from)
    && (forall i :: 0 <= i < |slots| ==> slots[i].start < slots[i].end == Min(slots[i].start + step, dayEnd))
    && (forall i :: 0 < i < |slots| ==> slots[i].start == slots[i - 1].end)
  }

  /** The slots partition the working day exactly, and each shows the first range that hits it. */
  predicate IsGrid(slots: seq<Slot>, cfg: RoomConfig, ranges: seq<Range>) {
    && Row(slots, cfg.workStart, cfg.workEnd, cfg.step)
    && (if cfg.workStart < cfg.workEnd then slots != [] && slots[|slots| - 1].end == cfg.workEnd else slots == [])
    && (forall i :: 0 <= i < |slots| ==> Shows(slots[i], ranges))
  }

  lemma RowAppend(slots: seq<Slot>, from: int, dayEnd: int, step: int, s: Slot)
    requires Row(slots, from, dayEnd, step) && s.start < s.end == Min(s.start + step, dayEnd)
    requires s.start == if slots == [] then from else slots[|slots| - 1].end
    ensures Row(slots + [s], from, dayEnd, step)
  {
  }

  method FillSlots(cfg: RoomConfig, ranges: seq<Range>) returns (slots: seq<Slot>)
    requires cfg.step > 0
    ensures IsGrid(slots, cfg, ranges)
  {
    hide Row, FirstHit;
    slots := [];
    var start := cfg.workStart;
    assert Row(slots, cfg.workStart, cfg.workEnd, cfg.step) by {
      NoSlots(cfg);
    }
    while start < cfg.workEnd
      invariant Row(slots, cfg.workStart, cfg.workEnd, cfg.step)
      invariant forall i :: 0 <= i < |slots| ==> Shows(slots[i], ranges)
      invariant slots == [] ==> start == cfg.workStart
      invariant slots != [] ==> slots[|slots| - 1].end == Min(start, cfg.workEnd) && cfg.workStart < cfg.workEnd
      decreases cfg.workEnd - start
    {
      var end := Min(start + cfg.step, cfg.workEnd);
      var hit := FirstHit(ranges, start, end);
      var slot := match hit
        case None => Slot(start, end, Free, None)
        case Some(range) => Slot(start, end, range.state, range.holdUntil);
      RowAppend(slots, cfg.workStart, cfg.workEnd, cfg.step, slot);
      slots := slots + [slot];
      start := start + cfg.step;
    }
  }

  lemma NoSlots(cfg: RoomConfig)
    ensures Row([], cfg.workStart, cfg.workEnd, cfg.step)
  {
  }

  /** `rows` are the bookings of the room with a segment on that day, in the order they are found. */
  method Availability(listing: Listing, rows: seq<Booking>, room: int, date: Date, now: int) returns (r: Result<seq<Slot>>)
    requires room in listing.rooms ==> listing.rooms[room].config.step > 0
    ensures r.Ok? <==> IsDate(date) && room in listing.rooms
    ensures r.Ok? ==> IsGrid(r.value, listing.rooms[room].config, DayRanges(rows, date, now))
    ensures r.Err? ==> r.error == if IsDate(date) then NotFound else ValidationError
  {
    if !IsDate(date) {
      return Err(ValidationError);
    }
    if room !in listing.rooms {
      return Err(NotFound);
    }
    var slots := FillSlots(listing.rooms[room].config, DayRanges(rows, date, now));
    return Ok(slots);
  }

  // ---------------------------------------------------------------- the grid and the conflict check

  /** The rows found for a room and day. */
  ghost predicate RowsOf(rows: seq<Booking>, bookings: map<nat, Booking>, room: int, date: Date) {
    && (forall i :: 0 <= i < |rows| ==>
          exists id :: id in bookings && bookings[id] == rows[i] && rows[i].quote.room == room)
    && (forall id :: id in bookings && bookings[id].quote.room == room && date in Days(bookings[id].quote.segments) ==>
          exists i :: 0 <= i < |rows| && rows[i] == bookings[id])
  }

  lemma RowsSeeConflicts(rows: seq<Booking>, bookings: map<nat, Booking>, room: int, now: int, s: Segment)
    requires RowsOf(rows, bookings, room, s.date)
    ensures Conflict(bookings, now, room, [s], None) <==> exists i :: 0 <= i < |rows| && Busy(rows[i], now, s)
  {
    hide Blocks, AnyOverlap;
    if i :| 0 <= i < |rows| && Busy(rows[i], now, s) {
      var id :| id in bookings && bookings[id] == rows[i] && rows[i].quote.room == room;
    }
    if Conflict(bookings, now, room, [s], None) {
      var id :| id in bookings && bookings[id].quote.room == room
        && Blocks(bookings[id], now) && AnyOverlap(bookings[id].quote.segments, [s]);
      OverlapDay(bookings[id].quote.segments, s);
      var k :| 0 <= k < |rows| && rows[k] == bookings[id];
      assert Busy(rows[k], now, s);
    }
  }

  lemma OverlapDay(segments: seq<Segment>, s: Segment)
    requires AnyOverlap(segments, [s])
    ensures s.date in Days(segments)
  {
    var i :| 0 <= i < |segments| && Overlap(segments[i], s);
    assert segments[i].date == s.date;
  }

  /** A slot is free exactly when booking it would meet no conflict. */
  lemma FreeIff(bookings: map<nat, Booking>, rows: seq<Booking>, cfg: RoomConfig, room: int, date: Date, now: int,
                slots: seq<Slot>, i: nat)
    requires RowsOf(rows, bookings, room, date) && IsGrid(slots, cfg, DayRanges(rows, date, now)) && i < |slots|
    ensures slots[i].state == Free
       <==> !Conflict(bookings, now, room, [Segment(date, slots[i].start, slots[i].end)], None)
  {
    hide Conflict, Blocks, DayRanges, RowsOf, AnyOverlap;
    var s := Segment(date, slots[i].start, slots[i].end);
    RowsSeeConflicts(rows, bookings, room, now, s);
    DayRangesIff(rows, date, now, s.start, s.end);
    NeverFree(rows, date, now);
    FirstHitIs(DayRanges(rows, date, now), s.start, s.end);
    assert Shows(slots[i], DayRanges(rows, date, now));
  }

  lemma {:induction false} NeverFree(rows: seq<Booking>, date: Date, now: int)
    ensures forall i :: 0 <= i < |DayRanges(rows, date, now)| ==> DayRanges(rows, date, now)[i].state != Free
  {
    if rows != [] {
      NeverFree(rows[..|rows| - 1], date, now);
      var last := rows[|rows| - 1];
      RangeNeverFree(last, last.quote.segments, date);
      hide Blocks;
    }
  }

  lemma {:induction false} RangeNeverFree(b: Booking, segments: seq<Segment>, date: Date)
    ensures forall i :: 0 <= i < |RangesOf(b, segments, date)| ==> RangesOf(b, segments, date)[i].state != Free
  {
    if segments != [] {
      RangeNeverFree(b, segments[..|segments| - 1], date);
    }
  }

  /** Every minute of the working day is in one slot. */
  lemma {:induction false} SlotOfMinute(slots: seq<Slot>, from: int, dayEnd: int, step: int, minute: int) returns (i: nat)
    requires Row(slots, from, dayEnd, step) && slots != [] && from <= minute < slots[|slots| - 1].end
    ensures i < |slots| && slots[i].start <= minute < slots[i].end
  {
    if slots[|slots| - 1].start <= minute {
      return |slots| - 1;
    }
    var front := slots[..|slots| - 1];
    assert front != [];
    i := SlotOfMinute(front, from, dayEnd, step, minute);
  }

  /** Time in the working day whose slots are all free can be booked. */
  lemma FreeTimeBookable(bookings: map<nat, Booking>, rows: seq<Booking>, cfg: RoomConfig, room: int, date: Date,
                         now: int, slots: seq<Slot>, wanted: Segment)
    requires RowsOf(rows, bookings, room, date) && IsGrid(slots, cfg, DayRanges(rows, date, now))
    requires forall id :: id in bookings ==> ProperSegments(bookings[id])
    requires wanted.date == date && cfg.workStart <= wanted.start < wanted.end <= cfg.workEnd
    requires forall i :: 0 <= i < |slots| && slots[i].start < wanted.end && slots[i].end > wanted.start ==>
               slots[i].state == Free
    ensures !Conflict(bookings, now, room, [wanted], None)
  {
    if Conflict(bookings, now, room, [wanted], None) {
      hide Blocks, Shows, DayRanges, RowsOf;
      var id :| id in bookings && bookings[id].quote.room == room
        && Blocks(bookings[id], now) && AnyOverlap(bookings[id].quote.segments, [wanted]);
      var busy := OverlappingSegment(bookings[id], wanted);
      var i := SlotOfMinute(slots, cfg.workStart, cfg.workEnd, cfg.step, Max(busy.start, wanted.start));
      assert slots[i].state == Free;
      FreeIff(bookings, rows, cfg, room, date, now, slots, i);
      OneOverlap(bookings[id].quote.segments, busy, Segment(date, slots[i].start, slots[i].end));
      assert false;
    }
  }

  lemma OverlappingSegment(b: Booking, s: Segment) returns (busy: Segment)
    requires ProperSegments(b) && AnyOverlap(b.quote.segments, [s])
    ensures busy in b.quote.segments && Overlap(busy, s) && busy.start < busy.end
  {
    var k :| 0 <= k < |b.quote.segments| && Overlap(b.quote.segments[k], s);
    return b.quote.segments[k];
  }

  lemma OneOverlap(segments: seq<Segment>, busy: Segment, s: Segment)
    requires busy in segments && Overlap(busy, s)
    ensures AnyOverlap(segments, [s])
  {
    var k :| 0 <= k < |segments| && segments[k] == busy;
    assert Overlap(segments[k], [s][0]);
  }

  predicate ProperSegments(b: Booking) {
    forall i :: 0 <= i < |b.quote.segments| ==> b.quote.segments[i].start < b.quote.segments[i].end
  }

  /** A stretch from the start of one slot to the end of another is bookable exactly when all its slots are free. */
  lemma BookableIffFree(bookings: map<nat, Booking>, rows: seq<Booking>, cfg: RoomConfig, room: int, date: Date,
                        now: int, slots: seq<Slot>, first: nat, last: nat)
    requires RowsOf(rows, bookings, room, date) && IsGrid(slots, cfg, DayRanges(rows, date, now))
    requires forall id :: id in bookings ==> ProperSegments(bookings[id])
    requires first <= last < |slots|
    ensures (forall i :: first <= i <= last ==> slots[i].state == Free)
       <==> !Conflict(bookings, now, room, [Segment(date, slots[first].start, slots[last].end)], None)
  {
    var wanted := Segment(date, slots[first].start, slots[last].end);
    hide DayRanges, RowsOf, Shows, ProperSegments, Conflict, Row;
    StretchSlots(slots, cfg.workStart, cfg.workEnd, cfg.step, first, last);
    if forall i :: first <= i <= last ==> slots[i].state == Free {
      FreeTimeBookable(bookings, rows, cfg, room, date, now, slots, wanted);
    } else {
      var i :| first <= i <= last && slots[i].state != Free;
      FreeIff(bookings, rows, cfg, room, date, now, slots, i);
      WiderConflict(bookings, now, room, Segment(date, slots[i].start, slots[i].end), wanted);
    }
  }

  /** Between the start of one slot and the end of another lie just the slots between them. */
  lemma StretchSlots(slots: seq<Slot>, from: int, dayEnd: int, step: int, first: nat, last: nat)
    requires Row(slots, from, dayEnd, step) && first <= last < |slots|
    ensures from <= slots[first].start < slots[last].end <= dayEnd
    ensures forall i :: 0 <= i < |slots| ==>
              (first <= i <= last <==> slots[i].start < slots[last].end && slots[i].end > slots[first].start)
    ensures forall i :: first <= i <= last ==> slots[first].start <= slots[i].start && slots[i].end <= slots[last].end
  {
    SlotsAscend(slots, from, dayEnd, step);
  }

  lemma {:induction false} SlotsAscend(slots: seq<Slot>, from: int, dayEnd: int, step: int)
    requires Row(slots, from, dayEnd, step)
    ensures forall i, j :: 0 <= i < j < |slots| ==> slots[i].end <= slots[j].start
    ensures forall i :: 0 <= i < |slots| ==> from <= slots[i].start && slots[i].end <= dayEnd
  {
    if slots != [] {
      var n := |slots| - 1;
      SlotsAscend(slots[..n], from, dayEnd, step);
      forall i | 0 <= i < n ensures slots[i].end <= slots[n].start {
        assert slots[..n][i].end <= slots[..n][n - 1].start < slots[n - 1].end || i == n - 1;
      }
      forall i, j | 0 <= i < j < |slots| ensures slots[i].end <= slots[j].start {
        assert j < n ==> slots[..n][i].end <= slots[..n][j].start;
      }
      forall i | 0 <= i < |slots| ensures from <= slots[i].start && slots[i].end <= dayEnd {
        assert i < n ==> from <= slots[..n][i].start && slots[..n][i].end <= dayEnd;
        assert i == n && n > 0 ==> from <= slots[..n][n - 1].start;
      }
    }
  }

  lemma WiderConflict(bookings: map<nat, Booking>, now: int, room: int, narrow: Segment, wide: Segment)
    requires Conflict(bookings, now, room, [narrow], None)
    requires narrow.date == wide.date && wide.start <= narrow.start && narrow.end <= wide.end
    ensures Conflict(bookings, now, room, [wide], None)
  {
    hide Blocks;
    var id :| id in bookings && bookings[id].quote.room == room
      && Blocks(bookings[id], now) && AnyOverlap(bookings[id].quote.segments, [narrow]);
    var k :| 0 <= k < |bookings[id].quote.segments| && Overlap(bookings[id].quote.segments[k], narrow);
    assert Overlap(bookings[id].quote.segments[k], [wide][0]);
  }

  /** In every run, the grid of a room and day says of each of its stretches whether it can be booked. */
  lemma GridAgrees(now: nat, events: seq<Machine.Event>, rows: seq<Booking>, cfg: RoomConfig, room: int, date: Date,
                   slots: seq<Slot>, first: nat, last: nat)
    requires var db := Machine.After(Machine.Empty(now), events);
      RowsOf(rows, db.bookings, room, date) && IsGrid(slots, cfg, DayRanges(rows, date, db.now))
    requires first <= last < |slots|
    ensures var db := Machine.After(Machine.Empty(now), events);
      (forall i :: first <= i <= last ==> slots[i].state == Free)
      <==> !Conflict(db.bookings, db.now, room, [Segment(date, slots[first].start, slots[last].end)], None)
  {
    var db := Machine.After(Machine.Empty(now), events);
    Invariants.RunInv(now, events);
    hide Machine.After, RowsOf, IsGrid, Conflict;
    assert forall id :: id in db.bookings ==> ProperSegments(db.bookings[id]) by {
      forall id | id in db.bookings ensures ProperSegments(db.bookings[id]) {
        Invariants.Stored(db, id);
      }
    }
    BookableIffFree(db.bookings, rows, cfg, room, date, db.now, slots, first, last);
  }
}
