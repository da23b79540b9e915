/** Booked time: segments of calendar days, their normal form, and when two of them collide. */
module Segments {
  import opened Calendar
  import opened Results

  const MAX_SEGMENTS := 100

  /** Minutes `start` up to, but not including, `end` of one day. */
  datatype Segment = Segment(date: Date, start: int, end: int)

  predicate WellFormed(s: Segment, step: int)
    requires step > 0
  {
    && IsDate(s.date)
    && 0 <= s.start <= 1439 && 1 <= s.end <= 1440 && s.start < s.end
    && s.start % step == 0 && s.end % step == 0
  }

  predicate Overlap(a: Segment, b: Segment) {
    a.date == b.date && a.start < b.end && b.start < a.end
  }

  predicate AnyOverlap(a: seq<Segment>, b: seq<Segment>) {
    exists i, j :: 0 <= i < |a| && 0 <= j < |b| && Overlap(a[i], b[j])
  }

  /** The order segments are sorted by: the date, then the first minute. */
  predicate Earlier(a: Segment, b: Segment) {
    Before(a.date, b.date) || (a.date == b.date && a.start < b.start)
  }

  predicate Sorted(s: seq<Segment>) {
    forall i, j :: 0 <= i < j < |s| ==> !Earlier(s[j], s[i])
  }

  /** Inserts behind the segments that do not come later: sorting is stable. */
  function Insert(s: seq<Segment>, x: Segment): (r: seq<Segment>)
    ensures multiset(r) == multiset(s) + multiset{x}
  {
    if s == [] then [x]
    else if Earlier(x, s[0]) then [x] + s
    else
      assert s == [s[0]] + s[1..];
      [s[0]] + Insert(s[1..], x)
  }

  function Sort(s: seq<Segment>): (r: seq<Segment>)
    ensures multiset(r) == multiset(s)
  {
    if s == [] then []
    else
      assert s == s[..|s| - 1] + [s[|s| - 1]];
      Insert(Sort(s[..|s| - 1]), s[|s| - 1])
  }

  lemma {:induction false} InsertSorted(s: seq<Segment>, x: Segment)
    requires Sorted(s)
    ensures Sorted(Insert(s, x))
  {
    if s != [] && !Earlier(x, s[0]) {
      InsertSorted(s[1..], x);
      var rest := Insert(s[1..], x);
      forall j | 0 <= j < |rest| ensures !Earlier(rest[j], s[0]) {
        assert rest[j] in multiset(rest);
        assert rest[j] in multiset(s[1..]) || rest[j] == x;
      }
    }
  }

  lemma {:induction false} SortSorted(s: seq<Segment>)
    ensures Sorted(Sort(s))
  {
    if s != [] {
      SortSorted(s[..|s| - 1]);
      InsertSorted(Sort(s[..|s| - 1]), s[|s| - 1]);
    }
  }

  /** The source compares each segment with its predecessor only. */
  predicate NeighboursDisjoint(s: seq<Segment>) {
    forall i :: 1 <= i < |s| && s[i].date == s[i - 1].date ==> s[i].start >= s[i - 1].end
  }

  predicate PairwiseDisjoint(s: seq<Segment>) {
    forall i, j :: 0 <= i < j < |s| ==> !Overlap(s[i], s[j])
  }

  function Normalize(raw: seq<Segment>, step: int): Result<seq<Segment>>
    requires step > 0
  {
    if |raw| == 0 || |raw| > MAX_SEGMENTS then Err(ValidationError)
    else if exists i :: 0 <= i < |raw| && !WellFormed(raw[i], step) then Err(ValidationError)
    else if !NeighboursDisjoint(Sort(raw)) then Err(ValidationError)
    else Ok(Sort(raw))
  }

  /** In sorted segments, the check of neighbours rules out every overlap. */
  lemma {:induction false} NeighboursSuffice(s: seq<Segment>, i: int, j: int)
    requires Sorted(s) && NeighboursDisjoint(s) && forall k :: 0 <= k < |s| ==> s[k].start < s[k].end
    requires 0 <= i < j < |s| && s[i].date == s[j].date
    ensures s[i].end <= s[j].start
    decreases j - i
  {
    if i + 1 < j {
      assert s[j - 1].date == s[i].date;
      NeighboursSuffice(s, i, j - 1);
    }
  }

  lemma NeighboursIffPairwise(s: seq<Segment>)
    requires Sorted(s) && forall k :: 0 <= k < |s| ==> s[k].start < s[k].end
    ensures NeighboursDisjoint(s) <==> PairwiseDisjoint(s)
  {
    if NeighboursDisjoint(s) {
      forall i, j | 0 <= i < j < |s| && s[i].date == s[j].date ensures !Overlap(s[i], s[j]) {
        NeighboursSuffice(s, i, j);
      }
    }
    if PairwiseDisjoint(s) {
      forall i | 1 <= i < |s| && s[i].date == s[i - 1].date ensures s[i].start >= s[i - 1].end {
        assert !Overlap(s[i - 1], s[i]);
      }
    }
  }

  /** Disjointness of a bag of segments, whatever the order it is listed in. */
  ghost predicate BagDisjoint(bag: multiset<Segment>) {
    && (forall a :: a in bag ==> bag[a] == 1)
    && (forall a, b :: a in bag && b in bag && a != b ==> !Overlap(a, b))
  }

  lemma {:induction false} DistinctOnce(s: seq<Segment>, a: Segment)
    requires forall i, j :: 0 <= i < j < |s| ==> s[i] != s[j]
    ensures multiset(s)[a] <= 1
  {
    if s != [] {
      var last, rest := s[|s| - 1], s[..|s| - 1];
      assert s == rest + [last];
      DistinctOnce(rest, a);
    }
  }

  lemma RepeatedTwice(s: seq<Segment>, i: int, j: int)
    requires 0 <= i < j < |s| && s[i] == s[j]
    ensures multiset(s)[s[i]] >= 2
  {
    assert s == s[..j] + [s[j]] + s[j + 1..];
    assert s[i] in multiset(s[..j]) by {
      assert s[..j][i] == s[i];
    }
  }

  lemma DisjointBag(s: seq<Segment>)
    requires forall k :: 0 <= k < |s| ==> s[k].start < s[k].end
    ensures PairwiseDisjoint(s) <==> BagDisjoint(multiset(s))
  {
    if PairwiseDisjoint(s) {
      forall i, j | 0 <= i < j < |s| ensures s[i] != s[j] {
        assert !Overlap(s[i], s[j]);
      }
      forall a | a in multiset(s) ensures multiset(s)[a] == 1 {
        DistinctOnce(s, a);
      }
    }
    if BagDisjoint(multiset(s)) {
      forall i, j | 0 <= i < j < |s| ensures !Overlap(s[i], s[j]) {
        assert s[i] in multiset(s) && s[j] in multiset(s);
        if s[i] == s[j] {
          RepeatedTwice(s, i, j);
        }
      }
    }
  }

  /**
   Normalizing accepts exactly the non-empty lists of at most 100 well-formed segments no two of
   which overlap, in whatever order they come, and returns them sorted.
   */
  lemma NormalizeIff(raw: seq<Segment>, step: int)
    requires step > 0
    ensures Normalize(raw, step).Ok? <==>
              && 0 < |raw| <= MAX_SEGMENTS
              && (forall i :: 0 <= i < |raw| ==> WellFormed(raw[i], step))
              && PairwiseDisjoint(raw)
    ensures var r := Normalize(raw, step);
      r.Ok? ==> Sorted(r.value) && PairwiseDisjoint(r.value) && multiset(r.value) == multiset(raw)
                && |r.value| == |raw| && forall i :: 0 <= i < |r.value| ==> WellFormed(r.value[i], step)
  {
    var sorted := Sort(raw);
    SortSorted(raw);
    assert |sorted| == |multiset(sorted)| == |multiset(raw)| == |raw|;
    if forall i :: 0 <= i < |raw| ==> WellFormed(raw[i], step) {
      forall i | 0 <= i < |sorted| ensures WellFormed(sorted[i], step) {
        assert sorted[i] in multiset(raw);
      }
      NeighboursIffPairwise(sorted);
      DisjointBag(sorted);
      DisjointBag(raw);
    }
  }

  // ---------------------------------------------------------------- minutes covered

  function Duration(s: seq<Segment>): int {
    if s == [] then 0 else Duration(s[..|s| - 1]) + s[|s| - 1].end - s[|s| - 1].start
  }

  lemma {:induction false} DurationConcat(a: seq<Segment>, b: seq<Segment>)
    ensures Duration(a + b) == Duration(a) + Duration(b)
  {
    if b == [] {
      assert a + b == a;
    } else {
      DurationConcat(a, b[..|b| - 1]);
      assert (a + b)[..|a + b| - 1] == a + b[..|b| - 1];
    }
  }

  lemma {:induction false} DurationInsert(s: seq<Segment>, x: Segment)
    ensures Duration(Insert(s, x)) == Duration(s) + x.end - x.start
  {
    assert Duration([x]) == x.end - x.start;
    if s == [] {
    } else if Earlier(x, s[0]) {
      DurationConcat([x], s);
    } else {
      DurationInsert(s[1..], x);
      DurationConcat([s[0]], Insert(s[1..], x));
      DurationConcat([s[0]], s[1..]);
      assert [s[0]] + s[1..] == s;
    }
  }

  /** Sorting does not change how much time is booked. */
  lemma {:induction false} DurationSort(s: seq<Segment>)
    ensures Duration(Sort(s)) == Duration(s)
  {
    if s != [] {
      DurationSort(s[..|s| - 1]);
      DurationInsert(Sort(s[..|s| - 1]), s[|s| - 1]);
    }
  }

  /** The minutes a segment covers, as pairs of a day and a minute of that day. */
  function Minutes(s: Segment): set<(Date, int)> {
    set m | s.start <= m < s.end :: (s.date, m)
  }

  function Covered(s: seq<Segment>): set<(Date, int)> {
    if s == [] then {} else Covered(s[..|s| - 1]) + Minutes(s[|s| - 1])
  }

  lemma {:induction false} MinutesCount(s: Segment)
    requires s.start <= s.end
    ensures |Minutes(s)| == s.end - s.start
    decreases s.end - s.start
  {
    if s.start == s.end {
      assert Minutes(s) == {};
    } else {
      var shorter := s.(end := s.end - 1);
      MinutesCount(shorter);
      assert Minutes(s) == Minutes(shorter) + {(s.date, s.end - 1)};
    }
  }

  lemma {:induction false} CoveredBy(s: seq<Segment>, m: (Date, int))
    ensures m in Covered(s) <==> exists i :: 0 <= i < |s| && m in Minutes(s[i])
  {
    if s != [] {
      CoveredBy(s[..|s| - 1], m);
      if i :| 0 <= i < |s| && m in Minutes(s[i]) {
        assert i < |s| - 1 ==> s[..|s| - 1][i] == s[i];
      }
    }
  }

  /** The duration a booking is priced by is the number of distinct minutes it occupies. */
  lemma {:induction false} DurationCountsMinutes(s: seq<Segment>)
    requires PairwiseDisjoint(s) && forall k :: 0 <= k < |s| ==> s[k].start < s[k].end
    ensures Duration(s) == |Covered(s)|
  {
    if s != [] {
      var last, rest := s[|s| - 1], s[..|s| - 1];
      DurationCountsMinutes(rest);
      MinutesCount(last);
      forall m | m in Covered(rest) ensures m !in Minutes(last) {
        CoveredBy(rest, m);
        var i :| 0 <= i < |rest| && m in Minutes(rest[i]);
        assert !Overlap(s[i], s[|s| - 1]);
      }
      assert Covered(rest) !! Minutes(last);
    }
  }

  /** Two bookings overlap exactly when they share a minute. */
  lemma OverlapSharesMinute(a: seq<Segment>, b: seq<Segment>)
    requires forall k :: 0 <= k < |a| ==> a[k].start < a[k].end
    requires forall k :: 0 <= k < |b| ==> b[k].start < b[k].end
    ensures AnyOverlap(a, b) <==> Covered(a) * Covered(b) != {}
  {
    if AnyOverlap(a, b) {
      var i, j :| 0 <= i < |a| && 0 <= j < |b| && Overlap(a[i], b[j]);
      var m := (a[i].date, Max(a[i].start, b[j].start));
      assert m in Minutes(a[i]) && m in Minutes(b[j]);
      CoveredBy(a, m);
      CoveredBy(b, m);
      assert m in Covered(a) * Covered(b);
    }
    if m :| m in Covered(a) * Covered(b) {
      CoveredBy(a, m);
      CoveredBy(b, m);
      var i :| 0 <= i < |a| && m in Minutes(a[i]);
      var j :| 0 <= j < |b| && m in Minutes(b[j]);
      assert Overlap(a[i], b[j]);
    }
  }

  /** The distinct days of a list of segments. */
  function Days(s: seq<Segment>): set<Date> {
    set i | 0 <= i < |s| :: s[i].date
  }
}
