/**
 What a price is made of, in plain terms: each line of services, the time by the hour or by the day, the hours
 that are written off, and what an edit, a transfer or an extension asks for.
 */
module Prices {
  import opened Calendar
  import opened Results
  import opened Segments
  import opened Catalog

  function Sum(s: seq<int>): int {
    if s == [] then 0 else Sum(s[..|s| - 1]) + s[|s| - 1]
  }

  function Amounts(lines: seq<ServiceLine>): (r: seq<int>)
    ensures |r| == |lines| && forall i :: 0 <= i < |lines| ==> r[i] == lines[i].amount
  {
    seq(|lines|, i requires 0 <= i < |lines| => lines[i].amount)
  }

  /** A whole amount nearest to `price` an hour for some minutes; of two, the upper. */
  predicate Nearest(amount: int, price: int, minutes: int) {
    -30 < 60 * amount - price * minutes <= 30
  }

  // ---------------------------------------------------------------- services

  lemma {:induction false} TotalIsSum(lines: seq<ServiceLine>)
    ensures ServicesTotal(lines) == Sum(Amounts(lines))
  {
    if lines != [] {
      TotalIsSum(lines[..|lines| - 1]);
      assert Amounts(lines)[..|lines| - 1] == Amounts(lines[..|lines| - 1]);
    }
  }

  lemma LinePriced(s: Service, duration: int, quantity: int)
    requires quantity > 0
    ensures !s.perHour ==> LineAmount(s, duration, quantity) == s.price * quantity
    ensures s.perHour ==>
              && Nearest(LineAmount(s, duration, quantity) / quantity, s.price, duration)
              && LineAmount(s, duration, quantity) % quantity == 0
    ensures s.perHour ==>
              -30 * quantity <= 60 * LineAmount(s, duration, quantity) - s.price * duration * quantity <= 30 * quantity
  {
    if s.perHour {
      PerHourNearest(s.price, duration);
      var each := PerHour(s.price, duration);
      Multiple(each, quantity);
      Scaled(60 * each, s.price * duration, quantity);
    }
  }

  lemma Multiple(each: int, quantity: int)
    requires quantity > 0
    ensures (each * quantity) / quantity == each && (each * quantity) % quantity == 0
  {
    var quotient, rest := (each * quantity) / quantity, (each * quantity) % quantity;
    assert each * quantity == quotient * quantity + rest;
    Larger(quotient + 1, each, quantity);
    Larger(each + 1, quotient, quantity);
  }

  lemma Larger(a: int, b: int, quantity: int)
    requires quantity > 0
    ensures a <= b ==> a * quantity <= b * quantity
    ensures (a + 1) * quantity == a * quantity + quantity
    ensures (a - 1) * quantity == a * quantity - quantity
  {
    if a <= b {
      assert (b - a) * quantity >= 0;
    }
  }

  lemma Scaled(a: int, b: int, quantity: int)
    requires quantity > 0 && -30 < a - b <= 30
    ensures -30 * quantity <= a * quantity - b * quantity <= 30 * quantity
  {
    Larger(a - b, 30, quantity);
    Larger(-30, a - b, quantity);
    assert (a - b) * quantity == a * quantity - b * quantity;
  }

  /**
   The services of every accepted quote: a flat line is price times quantity, an hourly one the rounded price
   times quantity, and they are added up.
   */
  lemma ServicesPriced(listing: Listing, input: QuoteInput, previous: int, i: nat)
    requires MakeQuote(listing, input, previous).Ok? && i < |input.services|
    ensures var q := MakeQuote(listing, input, previous).value;
      && |q.services| == |input.services| && q.servicesAmount == Sum(Amounts(q.services))
      && var l, r := q.services[i], input.services[i];
         && l.id == r.id && l.quantity == r.quantity && 1 <= l.quantity && l.id in listing.services
         && var s := listing.services[l.id];
            && (!s.perHour ==> l.amount == s.price * l.quantity)
            && (s.perHour ==>
                  && -30 * l.quantity <= 60 * l.amount - s.price * q.duration * l.quantity <= 30 * l.quantity
                  && Nearest(l.amount / l.quantity, s.price, q.duration) && l.amount % l.quantity == 0)
  {
    hide Normalize, Duration, BaseAmount, Hours, PaidBase, Selected, ServicesTotal, SlotStep, LineAmount, Nearest;
    var q := MakeQuote(listing, input, previous).value;
    TotalIsSum(q.services);
    SelectedIff(listing, input.room, q.duration, input.services);
    LinePriced(listing.services[input.services[i].id], q.duration, input.services[i].quantity);
  }

  lemma NoServicesFree(listing: Listing, input: QuoteInput, previous: int)
    requires MakeQuote(listing, input, previous).Ok? && input.services == []
    ensures var q := MakeQuote(listing, input, previous).value; q.services == [] && q.servicesAmount == 0
  {
    hide Normalize, Duration, BaseAmount, Hours, PaidBase, SlotStep;
  }

  // ---------------------------------------------------------------- the time

  /** The segments of a quote are those asked for, each within the day and the working hours, and on the step of the room. */
  lemma TimeAsked(listing: Listing, input: QuoteInput, previous: int)
    requires MakeQuote(listing, input, previous).Ok?
    ensures var q := MakeQuote(listing, input, previous).value;
      && q.room == input.room && q.room in listing.rooms && listing.rooms[q.room].active
      && multiset(q.segments) == multiset(input.segments) && 1 <= |input.segments| <= 100
      && var cfg := listing.rooms[q.room].config;
         var step := if cfg.step == 0 then 30 else cfg.step;
         && q.writeoff % step == 0
         && forall s :: s in q.segments ==>
              && 0 <= s.start < s.end <= 1440 && s.start % step == 0 && s.end % step == 0
              && cfg.workStart <= s.start && s.end <= cfg.workEnd
  {
    hide Normalize, Duration, BaseAmount, PaidBase, Selected, ServicesTotal, Sorted, PairwiseDisjoint;
    var cfg := listing.rooms[input.room].config;
    NormalizeIff(input.segments, SlotStep(cfg));
  }

  /** They come day by day and, within a day, each after the end of the one before. */
  lemma TimeInOrder(listing: Listing, input: QuoteInput, previous: int, i: nat, j: nat)
    requires MakeQuote(listing, input, previous).Ok? && i < j < |MakeQuote(listing, input, previous).value.segments|
    ensures var s := MakeQuote(listing, input, previous).value.segments;
      Before(s[i].date, s[j].date) || (s[i].date == s[j].date && s[i].end <= s[j].start)
  {
    hide Normalize, Duration, BaseAmount, PaidBase, Selected, ServicesTotal;
    NormalizeIff(input.segments, SlotStep(listing.rooms[input.room].config));
    var s := MakeQuote(listing, input, previous).value.segments;
    assert !Earlier(s[j], s[i]) && !Overlap(s[i], s[j]);
    OrdinalOrder(s[i].date, s[j].date);
    OrdinalOrder(s[j].date, s[i].date);
    SameDay(s[i].date, s[j].date);
  }

  /** Of two dates one is before the other, unless they are the same. */
  lemma SameDay(a: Date, b: Date)
    ensures a == b || Before(a, b) || Before(b, a)
  {
  }

  /**
   The price of the time: a price an hour is rounded once for the whole duration, a flat price is charged once,
   and an office by the day costs its daily price, or its price when it has none, for each day.
   */
  lemma TimePriced(listing: Listing, input: QuoteInput, previous: int)
    requires MakeQuote(listing, input, previous).Ok?
    ensures var q := MakeQuote(listing, input, previous).value;
      && q.room in listing.rooms
      && var room := listing.rooms[q.room];
         var cfg := room.config;
         && (q.dayOffice <==> room.office && input.dayOffice)
         && (q.dayOffice ==> q.base == (if cfg.dailyPrice != 0 then cfg.dailyPrice else cfg.price)
                                       * |set i | 0 <= i < |q.segments| :: q.segments[i].date|)
         && (!q.dayOffice && cfg.perHour ==> Nearest(q.base, cfg.price, q.duration))
         && (!q.dayOffice && !cfg.perHour ==> q.base == cfg.price)
  {
    hide Normalize, Duration, Hours, PaidBase, Selected, ServicesTotal, SlotStep;
    PerHourNearest(listing.rooms[input.room].config.price, MakeQuote(listing, input, previous).value.duration);
  }

  /**
   The hours written off are those asked for, or all the time when it is paid by the balance; the money for the
   time is the price of the rest, nothing when there is none, and the base when no hours are written off.
   */
  lemma HoursWritten(listing: Listing, input: QuoteInput, previous: int)
    requires MakeQuote(listing, input, previous).Ok?
    ensures var q := MakeQuote(listing, input, previous).value;
      && q.room in listing.rooms
      && var room, money := listing.rooms[q.room], q.total - q.servicesAmount;
         && q.writeoff == (if input.payBy == Balance then q.duration else input.writeoff)
         && 0 <= q.writeoff <= q.duration && (q.dayOffice ==> q.writeoff == 0)
         && (q.writeoff > previous ==> !room.hoursRefused)
         && (input.payBy == Balance ==> q.servicesAmount == 0)
         && (q.writeoff == q.duration ==> money == 0) && (q.writeoff == 0 ==> money == q.base)
         && (0 < q.writeoff < q.duration && room.config.perHour ==>
               Nearest(money, room.config.price, q.duration - q.writeoff))
         && (0 < q.writeoff < q.duration && !room.config.perHour ==> money == room.config.price)
  {
    hide Normalize, Duration, BaseAmount, Selected, ServicesTotal, QuoteOk, PairwiseDisjoint;
    QuotePositive(listing, input, previous);
    var q := MakeQuote(listing, input, previous).value;
    PerHourNearest(listing.rooms[q.room].config.price, q.duration - q.writeoff);
  }

  lemma QuotePositive(listing: Listing, input: QuoteInput, previous: int)
    requires MakeQuote(listing, input, previous).Ok?
    ensures MakeQuote(listing, input, previous).value.duration > 0
  {
    hide MakeQuote, PricingOk, PairwiseDisjoint, Duration;
    QuoteSound(listing, input, previous);
  }

  // ---------------------------------------------------------------- what is accepted

  predicate GoodTime(cfg: RoomConfig, segments: seq<Segment>) {
    var step := if cfg.step == 0 then 30 else cfg.step;
    && 1 <= |segments| <= 100
    && (forall i :: 0 <= i < |segments| ==>
          && IsDate(segments[i].date) && 0 <= segments[i].start < segments[i].end <= 1440
          && segments[i].start % step == 0 && segments[i].end % step == 0)
    && (forall i, j :: 0 <= i < j < |segments| && segments[i].date == segments[j].date ==>
          segments[i].end <= segments[j].start || segments[j].end <= segments[i].start)
  }

  predicate InWorkingHours(cfg: RoomConfig, segments: seq<Segment>) {
    forall i :: 0 <= i < |segments| ==> cfg.workStart <= segments[i].start && segments[i].end <= cfg.workEnd
  }

  predicate GoodPrices(room: Room, byDay: bool) {
    && room.config.price >= 0
    && (byDay && room.config.dailyPrice != 0 ==> room.config.dailyPrice > 0)
  }

  predicate GoodHours(room: Room, byDay: bool, hours: int, duration: int, previous: int) {
    && 0 <= hours <= duration && hours % (if room.config.step == 0 then 30 else room.config.step) == 0
    && (byDay ==> hours == 0) && (hours > previous ==> !room.hoursRefused)
  }

  predicate GoodServices(listing: Listing, room: int, requests: seq<ServiceRequest>) {
    && (forall i :: 0 <= i < |requests| ==>
          && requests[i].id >= 1 && 1 <= requests[i].quantity <= 1000 && requests[i].id in listing.services
          && listing.services[requests[i].id].active
          && (listing.services[requests[i].id].bound ==> room in listing.services[requests[i].id].rooms))
    && (forall i, j :: 0 <= i < j < |requests| ==> requests[i].id != requests[j].id)
  }

  lemma GoodTimeIff(cfg: RoomConfig, segments: seq<Segment>)
    ensures Normalize(segments, SlotStep(cfg)).Ok? <==> GoodTime(cfg, segments)
    ensures Normalize(segments, SlotStep(cfg)).Ok? ==>
              var sorted := Normalize(segments, SlotStep(cfg)).value;
              && Duration(sorted) == Duration(segments) && multiset(sorted) == multiset(segments)
              && (WithinHours(cfg, sorted) <==> InWorkingHours(cfg, segments))
  {
    hide Normalize, Duration, Sorted;
    NormalizeIff(segments, SlotStep(cfg));
    if Normalize(segments, SlotStep(cfg)).Ok? {
      var sorted := Normalize(segments, SlotStep(cfg)).value;
      SegmentsSound(segments, SlotStep(cfg));
      hide PairwiseDisjoint, WellFormed;
      SameHours(cfg, sorted, segments);
    }
  }

  lemma SameHours(cfg: RoomConfig, a: seq<Segment>, b: seq<Segment>)
    requires multiset(a) == multiset(b)
    ensures WithinHours(cfg, a) <==> InWorkingHours(cfg, b)
  {
    forall i | 0 <= i < |a| ensures a[i] in b {
      assert a[i] in multiset(b);
    }
    forall i | 0 <= i < |b| ensures b[i] in a {
      assert b[i] in multiset(a);
    }
  }

  /**
   A request is priced if and only if its room is let, its time is well formed, apart and in working hours, the
   prices are not negative, its hours can be written off, its services are offered, and nothing but time is to
   be paid by the balance.
   */
  lemma PricedIff(listing: Listing, input: QuoteInput, previous: int)
    ensures MakeQuote(listing, input, previous).Ok? <==>
      && input.room >= 1 && input.room in listing.rooms && listing.rooms[input.room].active
      && var room, duration := listing.rooms[input.room], Duration(input.segments);
         var byDay := room.office && input.dayOffice;
         && GoodTime(room.config, input.segments) && InWorkingHours(room.config, input.segments)
         && GoodPrices(room, byDay)
         && GoodHours(room, byDay, if input.payBy == Balance then duration else input.writeoff, duration, previous)
         && GoodServices(listing, input.room, input.services)
         && (input.payBy == Balance ==> ServicesCost(listing, duration, input.services) == 0)
  {
    hide Normalize, Duration, Selected, ServicesTotal, GoodTime, InWorkingHours, WithinHours, PaidBase, GoodServices;
    if input.room in listing.rooms {
      var room, duration := listing.rooms[input.room], Duration(input.segments);
      GoodTimeIff(room.config, input.segments);
      GoodServicesIff(listing, input.room, duration, input.services);
      hide SlotStep;
      StepIs(room.config);
    }
  }

  lemma StepIs(cfg: RoomConfig)
    ensures SlotStep(cfg) == if cfg.step == 0 then 30 else cfg.step
  {
  }

  /** What requested services cost together. */
  function ServicesCost(listing: Listing, duration: int, requests: seq<ServiceRequest>): int {
    if requests == [] then 0
    else
      var last := requests[|requests| - 1];
      ServicesCost(listing, duration, requests[..|requests| - 1])
      + if last.id !in listing.services then 0
        else if listing.services[last.id].perHour
        then last.quantity * ((listing.services[last.id].price * duration + 30) / 60)
        else last.quantity * listing.services[last.id].price
  }

  lemma {:induction false} GoodServicesIff(listing: Listing, room: int, duration: int, requests: seq<ServiceRequest>)
    ensures Selected(listing, room, duration, requests).Ok? <==> GoodServices(listing, room, requests)
    ensures Selected(listing, room, duration, requests).Ok? ==>
              ServicesTotal(Selected(listing, room, duration, requests).value) == ServicesCost(listing, duration, requests)
  {
    SelectedIff(listing, room, duration, requests);
    if requests != [] && Selected(listing, room, duration, requests).Ok? {
      GoodServicesIff(listing, room, duration, requests[..|requests| - 1]);
    }
  }

  /** A refusal names its reason. */
  lemma RefusedFor(listing: Listing, input: QuoteInput, previous: int)
    requires MakeQuote(listing, input, previous).Err?
    ensures match MakeQuote(listing, input, previous).error
      case NotFound => input.room !in listing.rooms || !listing.rooms[input.room].active
      case OutsideWorkingHours =>
        input.room in listing.rooms && GoodTime(listing.rooms[input.room].config, input.segments)
        && !InWorkingHours(listing.rooms[input.room].config, input.segments)
      case HoursNotAvailable =>
        input.room in listing.rooms && listing.rooms[input.room].hoursRefused
        && previous < (if input.payBy == Balance then Duration(input.segments) else input.writeoff)
      case ServiceUnavailable =>
        exists i :: 0 <= i < |input.services| && !Offered(listing, input.room, input.services[i].id)
      case BalanceServicesNotSupported => input.payBy == Balance && input.services != []
      case ValidationError => true
      case _ => false
  {
    hide Normalize, Duration, Selected, ServicesTotal, GoodTime, InWorkingHours, WithinHours, PaidBase, SlotStep;
    if input.room in listing.rooms {
      var room, duration := listing.rooms[input.room], Duration(input.segments);
      GoodTimeIff(room.config, input.segments);
      BadTime(room.config, input.segments);
      BadServices(listing, input.room, duration, input.services);
    }
  }

  lemma BadTime(cfg: RoomConfig, segments: seq<Segment>)
    ensures Normalize(segments, SlotStep(cfg)).Err? ==> Normalize(segments, SlotStep(cfg)).error == ValidationError
  {
    hide Sort, NeighboursDisjoint, WellFormed;
  }

  lemma {:induction false} BadServices(listing: Listing, room: int, duration: int, requests: seq<ServiceRequest>)
    ensures var r := Selected(listing, room, duration, requests);
      && (r.Err? ==>
            || r.error == ValidationError
            || (r.error == ServiceUnavailable
                && exists i :: 0 <= i < |requests| && !Offered(listing, room, requests[i].id)))
      && (requests == [] ==> r == Ok([])) && ServicesTotal([]) == 0
  {
    if requests != [] {
      var front := requests[..|requests| - 1];
      BadServices(listing, room, duration, front);
      assert forall i :: 0 <= i < |front| ==> front[i] == requests[i];
      hide Offered, LineAmount;
    }
  }

  /** Two marks are one exactly when the listing, the room, the time, the lines of services and the hours are the same. */
  lemma MarkTells(listing: Listing, p: Quote, other: Listing, q: Quote)
    ensures MarkOf(listing, p) == MarkOf(other, q) <==>
      && listing.version == other.version && p.room == q.room && p.segments == q.segments
      && p.services == q.services && p.writeoff == q.writeoff
  {
  }
}
