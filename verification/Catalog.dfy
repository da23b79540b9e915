/** Prices: the quote of a booking, and what an edit, a transfer or an extension does to it. */
module Catalog {
  import opened Calendar
  import opened Results
  import opened Segments

  datatype Method = Cash | Invoice | Postpay | CardOnline | QrCode | Balance | NoMethod

  /** Prices are in minor units; `step` 0 means the default of 30 minutes. */
  datatype RoomConfig = RoomConfig(price: int, perHour: bool, dailyPrice: int, step: nat, workStart: int, workEnd: int)

  /** `hoursRefused`: the office category of the room does not sell time for resident hours. */
  datatype Room = Room(active: bool, office: bool, hoursRefused: bool, config: RoomConfig)

  datatype Service = Service(price: nat, perHour: bool, active: bool, bound: bool, rooms: set<int>)

  datatype Listing = Listing(version: int, rooms: map<int, Room>, services: map<int, Service>)

  datatype ServiceRequest = ServiceRequest(id: int, quantity: int)

  datatype ServiceLine = ServiceLine(id: int, quantity: int, amount: int)

  datatype QuoteInput = QuoteInput(
    room: int, segments: seq<Segment>, dayOffice: bool, payBy: Method, writeoff: int,
    services: seq<ServiceRequest>)

  datatype Quote = Quote(
    room: int, dayOffice: bool, segments: seq<Segment>, duration: int, services: seq<ServiceLine>,
    base: int, servicesAmount: int, discount: int, total: int, writeoff: int)

  // ---------------------------------------------------------------- rounding

  /** `Math.round` of a price per hour for some minutes: halves are rounded up. */
  function PerHour(price: int, minutes: int): int {
    (price * minutes + 30) / 60
  }

  /** Half-up rounding is within half a unit of the exact price, and takes the upper of two nearest. */
  lemma PerHourNearest(price: int, minutes: int)
    ensures -30 < 60 * PerHour(price, minutes) - price * minutes <= 30
  {
  }

  lemma PerHourGrows(price: int, few: int, many: int)
    requires 0 <= price && few <= many
    ensures PerHour(price, few) <= PerHour(price, many)
    ensures 0 <= few ==> 0 <= PerHour(price, few)
  {
    assert price * few <= price * many;
    assert 0 <= few ==> 0 <= price * few;
    RoundGrows(price * few, price * many);
  }

  lemma RoundGrows(a: int, b: int)
    requires a <= b
    ensures (a + 30) / 60 <= (b + 30) / 60
    ensures 0 <= a ==> 0 <= (a + 30) / 60
  {
  }

  function SlotPrice(cfg: RoomConfig, minutes: int): int {
    if cfg.perHour then PerHour(cfg.price, minutes) else cfg.price
  }

  function SlotStep(cfg: RoomConfig): (step: nat)
    ensures step > 0
  {
    if cfg.step == 0 then 30 else cfg.step
  }

  // ---------------------------------------------------------------- services

  predicate Offered(listing: Listing, room: int, id: int) {
    && id in listing.services && listing.services[id].active
    && (listing.services[id].bound ==> room in listing.services[id].rooms)
  }

  function LineAmount(s: Service, duration: int, quantity: int): int {
    (if s.perHour then PerHour(s.price, duration) else s.price) * quantity
  }

  function SelectOne(listing: Listing, room: int, duration: int, selected: seq<ServiceLine>, r: ServiceRequest)
    : Result<ServiceLine>
  {
    if r.id < 1 then Err(ValidationError)
    else if exists i :: 0 <= i < |selected| && selected[i].id == r.id then Err(ValidationError)
    else if !Offered(listing, room, r.id) then Err(ServiceUnavailable)
    else if !(1 <= r.quantity <= 1000) then Err(ValidationError)
    else Ok(ServiceLine(r.id, r.quantity, LineAmount(listing.services[r.id], duration, r.quantity)))
  }

  function Selected(listing: Listing, room: int, duration: int, requests: seq<ServiceRequest>)
    : Result<seq<ServiceLine>>
  {
    if requests == [] then Ok([])
    else
      var before :- Selected(listing, room, duration, requests[..|requests| - 1]);
      var line :- SelectOne(listing, room, duration, before, requests[|requests| - 1]);
      Ok(before + [line])
  }

  /** The checking loop over the requested services. */
  method SelectServices(listing: Listing, room: int, duration: int, requests: seq<ServiceRequest>)
    returns (r: Result<seq<ServiceLine>>)
    ensures r == Selected(listing, room, duration, requests)
  {
    var selected: seq<ServiceLine> := [];
    var i := 0;
    while i < |requests|
      invariant 0 <= i <= |requests|
      invariant Selected(listing, room, duration, requests[..i]) == Ok(selected)
    {
      assert requests[..i + 1][..i] == requests[..i];
      var line := SelectOne(listing, room, duration, selected, requests[i]);
      if line.Err? {
        FirstErrorWins(listing, room, duration, requests, i + 1);
        return Err(line.error);
      }
      selected := selected + [line.value];
      i := i + 1;
    }
    assert requests[..i] == requests;
    return Ok(selected);
  }

  lemma {:induction false} FirstErrorWins(listing: Listing, room: int, duration: int, requests: seq<ServiceRequest>, k: nat)
    requires k <= |requests| && Selected(listing, room, duration, requests[..k]).Err?
    ensures Selected(listing, room, duration, requests) == Selected(listing, room, duration, requests[..k])
    decreases |requests| - k
  {
    if k == |requests| {
      assert requests[..k] == requests;
    } else {
      assert requests[..k + 1][..k] == requests[..k];
      FirstErrorWins(listing, room, duration, requests, k + 1);
    }
  }

  predicate GoodRequest(listing: Listing, room: int, r: ServiceRequest) {
    r.id >= 1 && Offered(listing, room, r.id) && 1 <= r.quantity <= 1000
  }

  /** Services are accepted exactly when each is offered for the room, in a legal quantity, and none twice. */
  lemma {:induction false} SelectedIff(listing: Listing, room: int, duration: int, requests: seq<ServiceRequest>)
    ensures var r := Selected(listing, room, duration, requests);
      && (r.Ok? <==> && (forall i :: 0 <= i < |requests| ==> GoodRequest(listing, room, requests[i]))
                     && (forall i, j :: 0 <= i < j < |requests| ==> requests[i].id != requests[j].id))
      && (r.Ok? ==> && |r.value| == |requests|
                    && forall i :: 0 <= i < |requests| ==>
                         && r.value[i].id == requests[i].id && r.value[i].quantity == requests[i].quantity
                         && requests[i].id in listing.services
                         && r.value[i].amount
                            == LineAmount(listing.services[requests[i].id], duration, requests[i].quantity))
  {
    if requests != [] {
      SelectedIff(listing, room, duration, requests[..|requests| - 1]);
    }
  }

  function ServicesTotal(lines: seq<ServiceLine>): int {
    if lines == [] then 0 else ServicesTotal(lines[..|lines| - 1]) + lines[|lines| - 1].amount
  }

  lemma {:induction false} ServicesNonNegative(listing: Listing, room: int, duration: nat, requests: seq<ServiceRequest>)
    requires Selected(listing, room, duration, requests).Ok?
    ensures ServicesTotal(Selected(listing, room, duration, requests).value) >= 0
  {
    if requests != [] {
      hide LineAmount;
      var before := requests[..|requests| - 1];
      ServicesNonNegative(listing, room, duration, before);
      var r := requests[|requests| - 1];
      LineNonNegative(listing.services[r.id], duration, r.quantity);
    }
  }

  lemma LineNonNegative(s: Service, duration: nat, quantity: nat)
    ensures LineAmount(s, duration, quantity) >= 0
  {
    PerHourGrows(s.price, 0, duration);
    var each := if s.perHour then PerHour(s.price, duration) else s.price;
    assert each >= 0;
    assert each * quantity >= 0;
  }

  // ---------------------------------------------------------------- the quote

  function BaseAmount(room: Room, dayOffice: bool, segments: seq<Segment>): Result<int> {
    if dayOffice then
      var daily := if room.config.dailyPrice == 0 then room.config.price else room.config.dailyPrice;
      if daily < 0 then Err(ValidationError) else Ok(daily * |Days(segments)|)
    else Ok(SlotPrice(room.config, Duration(segments)))
  }

  predicate WithinHours(cfg: RoomConfig, segments: seq<Segment>) {
    forall i :: 0 <= i < |segments| ==> cfg.workStart <= segments[i].start && segments[i].end <= cfg.workEnd
  }

  /** Which part of the base price is paid in money once `hours` minutes are paid in resident hours. */
  function PaidBase(cfg: RoomConfig, base: int, duration: int, hours: int): int {
    if hours == duration then 0
    else if hours == 0 then base
    else SlotPrice(cfg, Max(0, duration - hours))
  }

  /** The minutes to be written off, or the reason they cannot be. */
  function Hours(room: Room, input: QuoteInput, dayOffice: bool, duration: int, previous: int): Result<int> {
    var hours := if input.payBy == Balance then duration else input.writeoff;
    if hours < 0 then Err(ValidationError)
    else if hours > previous && room.hoursRefused then Err(HoursNotAvailable)
    else if hours > duration || hours % SlotStep(room.config) != 0 then Err(ValidationError)
    else if dayOffice && hours != 0 then Err(ValidationError)
    else Ok(hours)
  }

  /** `previous`: the hours already written off for the booking, which are never refused. */
  function MakeQuote(listing: Listing, input: QuoteInput, previous: int): Result<Quote> {
    if input.room < 1 then Err(ValidationError)
    else if input.room !in listing.rooms || !listing.rooms[input.room].active then Err(NotFound)
    else
      var room := listing.rooms[input.room];
      var segments :- Normalize(input.segments, SlotStep(room.config));
      var duration := Duration(segments);
      if !WithinHours(room.config, segments) then Err(OutsideWorkingHours)
      else if room.config.price < 0 then Err(ValidationError)
      else
        var dayOffice := room.office && input.dayOffice;
        var base :- BaseAmount(room, dayOffice, segments);
        var hours :- Hours(room, input, dayOffice, duration, previous);
        var selected :- Selected(listing, input.room, duration, input.services);
        var services := ServicesTotal(selected);
        if input.payBy == Balance && services != 0 then Err(BalanceServicesNotSupported)
        else
          var paid := PaidBase(room.config, base, duration, hours);
          Ok(Quote(input.room, dayOffice, segments, duration, selected, base, services,
                   base - paid, paid + services, hours))
  }

  /** The books of a price balance: what is charged is base plus services less the discount. */
  predicate PricingOk(q: Quote) {
    && q.base + q.servicesAmount - q.discount == q.total
    && 0 <= q.discount <= q.base && 0 <= q.servicesAmount
  }

  /** What every quote and every stored booking satisfies. */
  predicate QuoteOk(q: Quote) {
    && PricingOk(q)
    && |q.segments| > 0 && PairwiseDisjoint(q.segments)
    && (forall i :: 0 <= i < |q.segments| ==> IsDate(q.segments[i].date) && q.segments[i].start < q.segments[i].end)
    && q.duration == Duration(q.segments) && q.duration > 0
    && 0 <= q.writeoff <= q.duration
  }

  lemma {:induction false} DurationPositive(s: seq<Segment>)
    requires forall i :: 0 <= i < |s| ==> s[i].start < s[i].end
    ensures Duration(s) >= |s|
  {
    if s != [] {
      DurationPositive(s[..|s| - 1]);
    }
  }

  lemma BaseAmountNonNegative(room: Room, dayOffice: bool, segments: seq<Segment>)
    requires room.config.price >= 0 && Duration(segments) >= 0 && BaseAmount(room, dayOffice, segments).Ok?
    ensures BaseAmount(room, dayOffice, segments).value >= 0
  {
    PerHourGrows(room.config.price, 0, Duration(segments));
    if dayOffice {
      var daily := if room.config.dailyPrice == 0 then room.config.price else room.config.dailyPrice;
      assert daily * |Days(segments)| >= 0;
    }
  }

  lemma PaidBaseBounds(cfg: RoomConfig, base: int, duration: int, hours: int)
    requires cfg.price >= 0 && 0 <= base && 0 <= hours <= duration
    requires hours != 0 ==> base == SlotPrice(cfg, duration)
    ensures 0 <= PaidBase(cfg, base, duration, hours) <= base
  {
    PerHourGrows(cfg.price, Max(0, duration - hours), duration);
  }

  lemma HoursBounds(room: Room, input: QuoteInput, dayOffice: bool, duration: int, previous: int)
    requires duration >= 0 && Hours(room, input, dayOffice, duration, previous).Ok?
    ensures var hours := Hours(room, input, dayOffice, duration, previous).value;
      && 0 <= hours <= duration && (dayOffice ==> hours == 0)
  {
  }

  /** Every quote balances, and covers distinct time of the right length. */
  lemma QuoteSound(listing: Listing, input: QuoteInput, previous: int)
    requires MakeQuote(listing, input, previous).Ok?
    ensures var q := MakeQuote(listing, input, previous).value;
      && QuoteOk(q) && q.room == input.room && q.room in listing.rooms
      && listing.rooms[q.room].config.price >= 0
      && q.duration == Duration(input.segments)
      && BaseAmount(listing.rooms[q.room], q.dayOffice, q.segments) == Ok(q.base)
      && (q.writeoff == q.duration ==> q.total == q.servicesAmount)
      && (q.writeoff == 0 ==> q.discount == 0)
  {
    hide Normalize, PairwiseDisjoint, WellFormed, Duration, BaseAmount, Hours, PaidBase, Selected, ServicesTotal, SlotStep;
    var room := listing.rooms[input.room];
    var segments := Normalize(input.segments, SlotStep(room.config)).value;
    var dayOffice := room.office && input.dayOffice;
    SegmentsSound(input.segments, SlotStep(room.config));
    HoursBounds(room, input, dayOffice, Duration(segments), previous);
    AmountsSound(listing, input, room, dayOffice, segments, Hours(room, input, dayOffice, Duration(segments), previous).value);
  }

  lemma SegmentsSound(raw: seq<Segment>, step: int)
    requires step > 0 && Normalize(raw, step).Ok?
    ensures var s := Normalize(raw, step).value;
      && |s| > 0 && PairwiseDisjoint(s) && Duration(s) == Duration(raw) && Duration(s) > 0
      && forall i :: 0 <= i < |s| ==> IsDate(s[i].date) && s[i].start < s[i].end
  {
    NormalizeIff(raw, step);
    DurationSort(raw);
    DurationPositive(Normalize(raw, step).value);
  }

  lemma AmountsSound(listing: Listing, input: QuoteInput, room: Room, dayOffice: bool, segments: seq<Segment>, hours: int)
    requires room.config.price >= 0 && 0 <= hours <= Duration(segments) && 0 < Duration(segments)
    requires dayOffice ==> hours == 0
    requires BaseAmount(room, dayOffice, segments).Ok?
    requires Selected(listing, input.room, Duration(segments), input.services).Ok?
    ensures var base := BaseAmount(room, dayOffice, segments).value;
      && 0 <= base && 0 <= PaidBase(room.config, base, Duration(segments), hours) <= base
      && (hours == Duration(segments) ==> PaidBase(room.config, base, Duration(segments), hours) == 0)
      && (hours == 0 ==> PaidBase(room.config, base, Duration(segments), hours) == base)
    ensures ServicesTotal(Selected(listing, input.room, Duration(segments), input.services).value) >= 0
  {
    BaseAmountNonNegative(room, dayOffice, segments);
    PaidBaseBounds(room.config, BaseAmount(room, dayOffice, segments).value, Duration(segments), hours);
    ServicesNonNegative(listing, input.room, Duration(segments), input.services);
  }

  /** Paying more of the time in hours never costs more money. */
  lemma MoreHoursNeverDearer(cfg: RoomConfig, duration: int, few: int, many: int)
    requires cfg.price >= 0 && 0 <= few <= many <= duration
    ensures var base := SlotPrice(cfg, duration);
      PaidBase(cfg, base, duration, many) <= PaidBase(cfg, base, duration, few)
  {
    PerHourGrows(cfg.price, Max(0, duration - many), Max(0, duration - few));
    PerHourGrows(cfg.price, Max(0, duration - few), duration);
  }

  // ---------------------------------------------------------------- the mark of a price

  /** What the price fingerprint is made of; it stands for a price that was shown. */
  datatype PriceMark = PriceMark(version: int, room: int, segments: seq<Segment>, lines: seq<ServiceLine>, hours: int)

  function MarkOf(listing: Listing, q: Quote): PriceMark {
    PriceMark(listing.version, q.room, q.segments, q.services, q.writeoff)
  }

  /** Under one listing, two quotes with one mark cost the same, as long as both are by the day or neither is. */
  lemma MarkFixesPrice(listing: Listing, first: QuoteInput, second: QuoteInput, previous: int, later: int)
    requires MakeQuote(listing, first, previous).Ok? && MakeQuote(listing, second, later).Ok?
    ensures var p, q := MakeQuote(listing, first, previous).value, MakeQuote(listing, second, later).value;
      MarkOf(listing, p) == MarkOf(listing, q) && p.dayOffice == q.dayOffice ==>
        && p.total == q.total && p.base == q.base && p.discount == q.discount && p.duration == q.duration
  {
    hide Normalize, BaseAmount, Hours, PaidBase, Selected, ServicesTotal, SlotStep;
  }

  /**
   Under one listing, two quotes with one mark cost the same if and only if both are by the day or neither is,
   or the room costs the same for their time by the day and by the hour.
   */
  lemma MarkPriceIff(listing: Listing, first: QuoteInput, second: QuoteInput, previous: int, later: int)
    requires MakeQuote(listing, first, previous).Ok? && MakeQuote(listing, second, later).Ok?
    requires MarkOf(listing, MakeQuote(listing, first, previous).value)
          == MarkOf(listing, MakeQuote(listing, second, later).value)
    ensures var p, q := MakeQuote(listing, first, previous).value, MakeQuote(listing, second, later).value;
      && p.room in listing.rooms
      && var room := listing.rooms[p.room];
         p.total == q.total <==>
           || p.dayOffice == q.dayOffice
           || BaseAmount(room, true, p.segments) == BaseAmount(room, false, p.segments)
  {
    hide MakeQuote, BaseAmount, ServicesTotal, PairwiseDisjoint, Duration;
    MarkFixesPrice(listing, first, second, previous, later);
    QuoteSound(listing, first, previous);
    QuoteSound(listing, second, later);
    DayOfficeNoHours(listing, first, previous);
    DayOfficeNoHours(listing, second, later);
    ServicesOfLines(listing, first, previous);
    ServicesOfLines(listing, second, later);
  }

  lemma DayOfficeNoHours(listing: Listing, input: QuoteInput, previous: int)
    requires MakeQuote(listing, input, previous).Ok?
    ensures var q := MakeQuote(listing, input, previous).value; q.dayOffice ==> q.writeoff == 0
  {
    hide Normalize, Duration, BaseAmount, PaidBase, Selected, ServicesTotal, SlotStep;
  }

  lemma ServicesOfLines(listing: Listing, input: QuoteInput, previous: int)
    requires MakeQuote(listing, input, previous).Ok?
    ensures var q := MakeQuote(listing, input, previous).value; q.servicesAmount == ServicesTotal(q.services)
  {
    hide Normalize, Duration, BaseAmount, Hours, PaidBase, Selected, ServicesTotal, SlotStep;
  }

  // ---------------------------------------------------------------- changing a booking

  datatype Kind = Edit | Transfer | Extend

  /** The fields a change request may carry; an absent field keeps the booking's own value. */
  datatype ChangeInput = ChangeInput(
    room: Option<int>, segments: Option<seq<Segment>>, endMinute: Option<int>, dayOffice: Option<bool>,
    payBy: Option<Method>, writeoff: Option<int>, services: Option<seq<ServiceRequest>>)

  function Requests(lines: seq<ServiceLine>): (r: seq<ServiceRequest>)
    ensures |r| == |lines|
  {
    seq(|lines|, i requires 0 <= i < |lines| => ServiceRequest(lines[i].id, lines[i].quantity))
  }

  /** The original segments with a later end of the last one. */
  function Extended(segments: seq<Segment>, end: Option<int>): Result<seq<Segment>>
    requires |segments| > 0
  {
    var last := segments[|segments| - 1];
    if end.None? || end.value <= last.end || end.value > 1440 then Err(ValidationError)
    else Ok(segments[|segments| - 1 := last.(end := end.value)])
  }

  /** The hours asked for in a transfer or an extension: those kept, and those added for added time. */
  function ChangedHours(original: Quote, debited: int, input: ChangeInput, duration: int): Result<int> {
    var extra := Max(0, duration - original.duration);
    var additional := if input.payBy == Some(Balance) then extra else Or(input.writeoff, 0);
    if !(0 <= additional <= extra) then Err(ValidationError)
    else Ok(Max(0, debited - Max(0, original.duration - duration)) + additional)
  }

  function ChangeRequest(original: Quote, payBy: Method, debited: int, kind: Kind, input: ChangeInput)
    : Result<QuoteInput>
    requires |original.segments| > 0
  {
    var segments :- if kind.Extend? then Extended(original.segments, input.endMinute)
                    else Ok(Or(input.segments, original.segments));
    var room := Or(input.room, original.room);
    var dayOffice := Or(input.dayOffice, original.dayOffice);
    var services := if kind.Extend? then [] else Or(input.services, Requests(original.services));
    var paidBy := Or(input.payBy, payBy);
    if kind.Edit? then
      Ok(QuoteInput(room, segments, dayOffice, paidBy, Or(input.writeoff, original.writeoff), services))
    else
      var writeoff :- ChangedHours(original, debited, input, Duration(segments));
      // Hours are sent for the added time only, never for the whole booking.
      Ok(QuoteInput(room, segments, dayOffice, if paidBy.Balance? then Cash else paidBy, writeoff, services))
  }

  function AddedPrice(cfg: RoomConfig, minutes: int): int {
    if minutes <= 0 then 0 else SlotPrice(cfg, minutes)
  }

  /** An extension charges the added time only. */
  function ExtendPrice(original: Quote, debited: int, q: Quote, cfg: RoomConfig): Quote {
    var extra := Max(0, q.duration - original.duration);
    var hours := Max(0, q.writeoff - debited);
    var baseDelta := AddedPrice(cfg, extra);
    var paidDelta := AddedPrice(cfg, extra - hours);
    q.(base := original.base + baseDelta,
       servicesAmount := original.servicesAmount,
       discount := original.discount + baseDelta - paidDelta,
       total := original.total + paidDelta,
       services := original.services)
  }

  /** A transfer charges the positive difference to what the former booking would cost now. */
  function TransferPrice(original: Quote, debited: int, q: Quote, former: Quote, cfg: RoomConfig): Quote {
    var hours := Max(0, q.writeoff - debited);
    var baseDelta := Max(0, q.base - former.base);
    var paidDelta := Max(0, baseDelta - AddedPrice(cfg, hours));
    var serviceDelta := Max(0, q.servicesAmount - former.servicesAmount);
    q.(base := original.base + baseDelta,
       servicesAmount := original.servicesAmount + serviceDelta,
       discount := original.discount + baseDelta - paidDelta,
       total := original.total + paidDelta + serviceDelta)
  }

  function ChangeQuote(listing: Listing, original: Quote, payBy: Method, debited: int, kind: Kind, input: ChangeInput)
    : Result<Quote>
    requires |original.segments| > 0
  {
    var request :- ChangeRequest(original, payBy, debited, kind, input);
    var q :- MakeQuote(listing, request, debited);
    if q.room !in listing.rooms then Err(NotFound)
    else
      var cfg := listing.rooms[q.room].config;
      match kind
      case Edit => Ok(q)
      case Extend => Ok(ExtendPrice(original, debited, q, cfg))
      case Transfer =>
        var former :- MakeQuote(listing,
                             QuoteInput(original.room, original.segments, original.dayOffice, Cash, 0,
                                        Requests(original.services)), 0);
        Ok(TransferPrice(original, debited, q, former, cfg))
  }

  lemma AddedPriceGrows(cfg: RoomConfig, few: int, many: int)
    requires cfg.price >= 0 && few <= many
    ensures 0 <= AddedPrice(cfg, few) <= AddedPrice(cfg, many)
  {
    if few > 0 {
      PerHourGrows(cfg.price, few, many);
    } else if many > 0 {
      PerHourGrows(cfg.price, 0, many);
    }
  }

  /** Every change keeps the books balanced, and an extension or a transfer never lowers the total. */
  lemma ChangeSound(listing: Listing, original: Quote, payBy: Method, debited: int, kind: Kind, input: ChangeInput)
    requires QuoteOk(original)
    ensures var changed := ChangeQuote(listing, original, payBy, debited, kind, input);
      changed.Ok? ==> QuoteOk(changed.value) && (!kind.Edit? ==> changed.value.total >= original.total)
  {
    hide MakeQuote, ChangeRequest, AddedPrice, PairwiseDisjoint, Duration;
    if ChangeQuote(listing, original, payBy, debited, kind, input).Err? {
      return;
    }
    var request := ChangeRequest(original, payBy, debited, kind, input).value;
    QuoteSound(listing, request, debited);
    var q := MakeQuote(listing, request, debited).value;
    var cfg := listing.rooms[q.room].config;
    if kind.Extend? {
      var extra := Max(0, q.duration - original.duration);
      AddedPriceGrows(cfg, extra - Max(0, q.writeoff - debited), extra);
    } else if kind.Transfer? {
      AddedPriceGrows(cfg, 0, Max(0, q.writeoff - debited));
    }
  }

  // ---------------------------------------------------------------- rounding over many extensions

  lemma {:induction false} ExtendedDuration(segments: seq<Segment>, end: Option<int>)
    requires |segments| > 0 && Extended(segments, end).Ok?
    ensures Duration(Extended(segments, end).value)
         == Duration(segments) + end.value - segments[|segments| - 1].end
    ensures Duration(Extended(segments, end).value) > Duration(segments)
  {
    var r := Extended(segments, end).value;
    assert r[..|r| - 1] == segments[..|segments| - 1];
  }

  /** One extension adds exactly the rounded price of the added minutes. */
  lemma ExtendAdds(listing: Listing, original: Quote, payBy: Method, debited: int, input: ChangeInput)
    requires QuoteOk(original)
    ensures var extended := ChangeQuote(listing, original, payBy, debited, Extend, input);
      extended.Ok? ==>
        var q := extended.value;
        && q.duration > original.duration && q.room in listing.rooms && q.services == original.services
        && var cfg := listing.rooms[q.room].config;
           var added := q.duration - original.duration;
           q.base == original.base + (if cfg.perHour then PerHour(cfg.price, added) else cfg.price)
  {
    hide MakeQuote, PairwiseDisjoint, Duration, PerHour;
    if ChangeQuote(listing, original, payBy, debited, Extend, input).Err? {
      return;
    }
    ExtendedDuration(original.segments, input.endMinute);
    var request := ChangeRequest(original, payBy, debited, Extend, input).value;
    QuoteSound(listing, request, debited);
  }

  /** An extension stays in its room unless it names another. */
  lemma ExtendRoom(listing: Listing, original: Quote, payBy: Method, debited: int, input: ChangeInput)
    requires |original.segments| > 0
    ensures var extended := ChangeQuote(listing, original, payBy, debited, Extend, input);
      extended.Ok? ==> extended.value.room == Or(input.room, original.room)
  {
    hide MakeQuote, Duration, PerHour;
    if ChangeQuote(listing, original, payBy, debited, Extend, input).Ok? {
      QuoteSound(listing, ChangeRequest(original, payBy, debited, Extend, input).value, debited);
    }
  }

  /** An extension is free when added hours cover all the added time, and costs its full price when none are added. */
  lemma ExtendCharges(listing: Listing, original: Quote, payBy: Method, debited: int, input: ChangeInput)
    requires QuoteOk(original)
    ensures var extended := ChangeQuote(listing, original, payBy, debited, Extend, input);
      extended.Ok? ==>
        var q := extended.value;
        && (q.writeoff - debited >= q.duration - original.duration ==> q.total == original.total)
        && (q.writeoff <= debited ==> q.total - original.total == q.base - original.base)
  {
    hide MakeQuote, ChangeRequest, PairwiseDisjoint, Duration, PerHour, PricingOk;
    if ChangeQuote(listing, original, payBy, debited, Extend, input).Ok? {
      ExtendAdds(listing, original, payBy, debited, input);
    }
  }

  /**
   A transfer to what costs no more than the former booking would cost now is free; otherwise it costs the
   difference at most, and exactly the difference when no hours are added.
   */
  lemma TransferCharges(listing: Listing, original: Quote, payBy: Method, debited: int, input: ChangeInput,
                        request: QuoteInput, wanted: Quote, former: Quote)
    requires |original.segments| > 0 && ChangeRequest(original, payBy, debited, Transfer, input) == Ok(request)
    requires MakeQuote(listing, request, debited) == Ok(wanted)
    requires MakeQuote(listing, QuoteInput(original.room, original.segments, original.dayOffice, Cash, 0,
                                           Requests(original.services)), 0) == Ok(former)
    ensures var moved := ChangeQuote(listing, original, payBy, debited, Transfer, input);
      var more := Max(0, wanted.base - former.base) + Max(0, wanted.servicesAmount - former.servicesAmount);
      && moved.Ok? && moved.value.segments == wanted.segments && moved.value.room == wanted.room
      && original.total <= moved.value.total <= original.total + more
      && (wanted.writeoff <= debited ==> moved.value.total == original.total + more)
  {
    hide ChangeRequest, MakeQuote, PairwiseDisjoint, Duration, QuoteOk, Requests;
    QuoteSound(listing, request, debited);
    var cfg := listing.rooms[wanted.room].config;
    AddedPriceGrows(cfg, 0, Max(0, wanted.writeoff - debited));
  }

  /** How far sixty times the base price is from the exact price of the time. */
  function Drift(q: Quote, price: int): int {
    60 * q.base - price * q.duration
  }

  ghost predicate ExtendsTo(listing: Listing, from: Quote, to: Quote) {
    && |from.segments| > 0
    && exists payBy, debited, input ::
         ChangeQuote(listing, from, payBy, debited, Extend, input) == Ok(to) && to.room == from.room
  }

  /** One extension of a booking in an hourly room of this price. */
  lemma ExtensionDrift(listing: Listing, from: Quote, to: Quote, cfg: RoomConfig)
    requires QuoteOk(from) && ExtendsTo(listing, from, to)
    requires HourlyRoom(listing, from.room, cfg)
    ensures QuoteOk(to) && to.room == from.room
    ensures -30 < Drift(to, cfg.price) - Drift(from, cfg.price) <= 30
  {
    hide ChangeQuote, QuoteOk, Drift, PerHour;
    var payBy, debited, input :|
      ChangeQuote(listing, from, payBy, debited, Extend, input) == Ok(to) && to.room == from.room;
    assert from.room in listing.rooms && listing.rooms[from.room].config == cfg && cfg.perHour;
    hide *;
    ExtendAdds(listing, from, payBy, debited, input);
    ChangeSound(listing, from, payBy, debited, Extend, input);
    DriftStep(from, to, cfg.price);
  }

  predicate HourlyRoom(listing: Listing, room: int, cfg: RoomConfig) {
    room in listing.rooms && listing.rooms[room].config == cfg && cfg.perHour
  }

  lemma FirstDrift(q: Quote, price: int)
    requires q.base == PerHour(price, q.duration)
    ensures -30 < Drift(q, price) <= 30
  {
    PerHourNearest(price, q.duration);
  }

  lemma DriftStep(from: Quote, to: Quote, price: int)
    requires to.base == from.base + PerHour(price, to.duration - from.duration)
    ensures -30 < Drift(to, price) - Drift(from, price) <= 30
  {
    PerHourNearest(price, to.duration - from.duration);
    assert price * to.duration == price * from.duration + price * (to.duration - from.duration);
  }
}
