/** What an edit, a transfer and an extension ask for, and what of it is paid in money and in hours. */
module Changes {
  import opened Calendar
  import opened Results
  import opened Segments
  import opened Catalog
  import opened Prices

  /** What hours for added time are worth in money: nothing for none, the flat price, or the hourly price. */
  predicate WorthOf(amount: int, cfg: RoomConfig, minutes: int) {
    && (minutes <= 0 ==> amount == 0)
    && (minutes > 0 && cfg.perHour ==> Nearest(amount, cfg.price, minutes))
    && (minutes > 0 && !cfg.perHour ==> amount == cfg.price)
  }

  lemma AddedIsWorth(cfg: RoomConfig, minutes: int)
    ensures WorthOf(AddedPrice(cfg, minutes), cfg, minutes)
  {
    PerHourNearest(cfg.price, minutes);
  }

  /** What a change asks the catalogue for is priced as the request it stands for. */
  lemma ChangePriced(listing: Listing, original: Quote, payBy: Method, debited: int, kind: Kind, input: ChangeInput)
    requires |original.segments| > 0 && ChangeQuote(listing, original, payBy, debited, kind, input).Ok?
    ensures var asked := ChangeRequest(original, payBy, debited, kind, input);
      && asked.Ok? && MakeQuote(listing, asked.value, debited).Ok?
      && var q, r := MakeQuote(listing, asked.value, debited).value,
                     ChangeQuote(listing, original, payBy, debited, kind, input).value;
         && (kind.Edit? ==> r == q)
         && r.room == q.room && r.segments == q.segments && r.duration == q.duration && r.writeoff == q.writeoff
         && r.dayOffice == q.dayOffice
  {
    hide ChangeRequest, MakeQuote, AddedPrice;
  }

  /** An edit asks for the fields it carries and for the booking's own in place of the others. */
  lemma EditAsks(listing: Listing, original: Quote, payBy: Method, debited: int, input: ChangeInput)
    requires |original.segments| > 0 && ChangeQuote(listing, original, payBy, debited, Edit, input).Ok?
    ensures var q := ChangeQuote(listing, original, payBy, debited, Edit, input).value;
      && q.room == Or(input.room, original.room) && q.room in listing.rooms
      && multiset(q.segments) == multiset(Or(input.segments, original.segments))
      && (q.dayOffice <==> listing.rooms[q.room].office && Or(input.dayOffice, original.dayOffice))
      && q.writeoff == (if Or(input.payBy, payBy) == Balance then q.duration else Or(input.writeoff, original.writeoff))
      && (input.services.None? ==>
            |q.services| == |original.services| && forall i :: 0 <= i < |q.services| ==>
              q.services[i].id == original.services[i].id && q.services[i].quantity == original.services[i].quantity)
      && (input.services.Some? ==>
            |q.services| == |input.services.value| && forall i :: 0 <= i < |q.services| ==>
              q.services[i].id == input.services.value[i].id && q.services[i].quantity == input.services.value[i].quantity)
  {
    hide MakeQuote, ChangeQuote, Nearest;
    ChangePriced(listing, original, payBy, debited, Edit, input);
    var asked := ChangeRequest(original, payBy, debited, Edit, input).value;
    TimeAsked(listing, asked, debited);
    TimePriced(listing, asked, debited);
    HoursWritten(listing, asked, debited);
    LinesAsked(listing, asked, debited);
  }

  lemma LinesAsked(listing: Listing, input: QuoteInput, previous: int)
    requires MakeQuote(listing, input, previous).Ok?
    ensures var q := MakeQuote(listing, input, previous).value;
      |q.services| == |input.services| && forall i :: 0 <= i < |q.services| ==>
        q.services[i].id == input.services[i].id && q.services[i].quantity == input.services[i].quantity
  {
    hide MakeQuote, Nearest, Sum;
    if input.services == [] {
      NoServicesFree(listing, input, previous);
    } else {
      ServicesPriced(listing, input, previous, 0);
      forall i | 0 <= i < |input.services|
        ensures var q := MakeQuote(listing, input, previous).value;
          |q.services| == |input.services| && q.services[i].id == input.services[i].id
          && q.services[i].quantity == input.services[i].quantity
      {
        ServicesPriced(listing, input, previous, i);
      }
    }
  }

  /**
   An extension ends the last segment later, within its day. It writes off the hours asked for on top of those
   debited, or all the added time when that is paid by the balance; the rest of the added time is charged, and
   everything else that was bought stays as it was.
   */
  lemma ExtendAsks(listing: Listing, original: Quote, payBy: Method, debited: int, input: ChangeInput)
    requires QuoteOk(original) && debited >= 0 && ChangeQuote(listing, original, payBy, debited, Extend, input).Ok?
    ensures var q := ChangeQuote(listing, original, payBy, debited, Extend, input).value;
      var last := original.segments[|original.segments| - 1];
      && input.endMinute.Some? && last.end < input.endMinute.value <= 1440
      && var added := input.endMinute.value - last.end;
         var asked := if input.payBy == Some(Balance) then added else Or(input.writeoff, 0);
         && multiset(q.segments)
            == multiset(original.segments[|original.segments| - 1 := last.(end := input.endMinute.value)])
         && q.room == Or(input.room, original.room) && q.room in listing.rooms
         && q.duration == original.duration + added && 0 <= asked <= added
         && q.writeoff == debited + asked
         && q.services == original.services && q.servicesAmount == original.servicesAmount
         && WorthOf(q.base - original.base, listing.rooms[q.room].config, added)
         && WorthOf(q.total - original.total, listing.rooms[q.room].config, added - asked)
         && (input.payBy == Some(Balance) ==> q.total == original.total)
  {
    hide MakeQuote, Nearest, PairwiseDisjoint, Duration, PricingOk;
    ChangePriced(listing, original, payBy, debited, Extend, input);
    var request := ChangeRequest(original, payBy, debited, Extend, input).value;
    ExtendedDuration(original.segments, input.endMinute);
    TimeAsked(listing, request, debited);
    HoursWritten(listing, request, debited);
    QuoteSound(listing, request, debited);
    var q := MakeQuote(listing, request, debited).value;
    var cfg := listing.rooms[q.room].config;
    var added := q.duration - original.duration;
    AddedIsWorth(cfg, added);
    AddedIsWorth(cfg, added - (q.writeoff - debited));
    hide WorthOf;
  }

  /**
   A transfer keeps the debited hours, less the time given up and never below none, and adds those asked for in
   place of money for added time. It charges what the time costs more than the former booking would cost now,
   less the worth of the added hours, and what the services cost more; it never gives money back.
   */
  lemma TransferAsks(listing: Listing, original: Quote, payBy: Method, debited: int, input: ChangeInput)
    requires QuoteOk(original) && debited >= 0 && ChangeQuote(listing, original, payBy, debited, Transfer, input).Ok?
    ensures var q := ChangeQuote(listing, original, payBy, debited, Transfer, input).value;
      var added, less := Max(0, q.duration - original.duration), Max(0, original.duration - q.duration);
      var asked := if input.payBy == Some(Balance) then added else Or(input.writeoff, 0);
      && q.room == Or(input.room, original.room) && q.room in listing.rooms
      && multiset(q.segments) == multiset(Or(input.segments, original.segments))
      && 0 <= asked <= added
      && q.writeoff == Max(0, debited - less) + asked
      && exists wanted: Quote, former: Quote, worth: int ::
           && Former(listing, original, former) && Wanted(listing, original, payBy, debited, input, wanted)
           && WorthOf(worth, listing.rooms[q.room].config, asked)
           && q.services == wanted.services
           && q.base == original.base + Max(0, wanted.base - former.base)
           && q.servicesAmount == original.servicesAmount + Max(0, wanted.servicesAmount - former.servicesAmount)
           && q.total == original.total + Max(0, Max(0, wanted.base - former.base) - worth)
                         + Max(0, wanted.servicesAmount - former.servicesAmount)
  {
    hide MakeQuote, Nearest, PairwiseDisjoint, PricingOk, Duration;
    ChangePriced(listing, original, payBy, debited, Transfer, input);
    var request := ChangeRequest(original, payBy, debited, Transfer, input).value;
    TimeAsked(listing, request, debited);
    HoursWritten(listing, request, debited);
    QuoteSound(listing, request, debited);
    var wanted := MakeQuote(listing, request, debited).value;
    var former := MakeQuote(listing, AsItWas(original), 0).value;
    var asked := Max(0, wanted.writeoff - debited);
    AddedIsWorth(listing.rooms[wanted.room].config, asked);
    hide WorthOf;
    assert Former(listing, original, former) && Wanted(listing, original, payBy, debited, input, wanted);
    assert WorthOf(AddedPrice(listing.rooms[wanted.room].config, asked), listing.rooms[wanted.room].config, asked);
  }

  /** The booking as it was, asked for again without hours. */
  function AsItWas(original: Quote): QuoteInput {
    QuoteInput(original.room, original.segments, original.dayOffice, Cash, 0, Requests(original.services))
  }

  /** What the former booking would cost now. */
  ghost predicate Former(listing: Listing, original: Quote, former: Quote) {
    MakeQuote(listing, AsItWas(original), 0) == Ok(former)
  }

  /** What the booking costs with the fields of the transfer and its own in place of the others. */
  ghost predicate Wanted(listing: Listing, original: Quote, payBy: Method, debited: int, input: ChangeInput, wanted: Quote) {
    exists hours: int, way: Method ::
      && (Or(input.payBy, payBy) != Balance ==> way == Or(input.payBy, payBy)) && way != Balance
      && MakeQuote(listing, QuoteInput(Or(input.room, original.room), Or(input.segments, original.segments),
                                       Or(input.dayOffice, original.dayOffice), way, hours,
                                       Or(input.services, Requests(original.services))), debited) == Ok(wanted)
  }

  /** The hours that a transfer or an extension asks for must lie between none and the added time. */
  lemma TooManyHoursRefused(listing: Listing, original: Quote, payBy: Method, debited: int, kind: Kind, input: ChangeInput,
                            added: int)
    requires QuoteOk(original) && kind != Edit && input.payBy != Some(Balance) && input.writeoff.Some?
    requires kind == Extend ==>
               && input.endMinute.Some? && added == input.endMinute.value - original.segments[|original.segments| - 1].end
               && 0 < added && input.endMinute.value <= 1440
    requires kind == Transfer ==> added == Max(0, Duration(Or(input.segments, original.segments)) - original.duration)
    requires !(0 <= input.writeoff.value <= added)
    ensures ChangeQuote(listing, original, payBy, debited, kind, input) == Err(ValidationError)
  {
    hide MakeQuote, PairwiseDisjoint, PricingOk;
    if kind == Extend {
      ExtendedDuration(original.segments, input.endMinute);
    }
  }

  /** An extension must end later, and by midnight. */
  lemma NoLaterEndRefused(listing: Listing, original: Quote, payBy: Method, debited: int, input: ChangeInput)
    requires |original.segments| > 0
    requires input.endMinute.None? || input.endMinute.value <= original.segments[|original.segments| - 1].end
             || input.endMinute.value > 1440
    ensures ChangeQuote(listing, original, payBy, debited, Extend, input) == Err(ValidationError)
  {
  }

  /** The way of payment the catalogue is asked with: hours are never to pay for the whole booking of a transfer or an extension. */
  function AskedWay(kind: Kind, input: ChangeInput, payBy: Method): Method {
    if kind != Edit && Or(input.payBy, payBy) == Balance then Cash else Or(input.payBy, payBy)
  }

  /** The hours that a transfer or an extension to `duration` asks for on top of those kept. */
  function AskedHours(original: Quote, input: ChangeInput, duration: int): int {
    if input.payBy == Some(Balance) then Max(0, duration - original.duration) else Or(input.writeoff, 0)
  }

  /** An edit is priced if and only if the booking with its fields can be; the refusal is the same. */
  lemma EditPricedIff(listing: Listing, original: Quote, payBy: Method, debited: int, input: ChangeInput)
    requires |original.segments| > 0
    ensures ChangeQuote(listing, original, payBy, debited, Edit, input)
         == MakeQuote(listing, QuoteInput(Or(input.room, original.room), Or(input.segments, original.segments),
                                          Or(input.dayOffice, original.dayOffice), AskedWay(Edit, input, payBy),
                                          Or(input.writeoff, original.writeoff),
                                          Or(input.services, Requests(original.services))), debited)
  {
    hide MakeQuote;
    var request := ChangeRequest(original, payBy, debited, Edit, input).value;
    if MakeQuote(listing, request, debited).Ok? {
      TimeAsked(listing, request, debited);
    }
  }

  /** An extension is priced if and only if it ends later and by midnight, asks for hours of the added time, and the longer booking can be priced. */
  lemma ExtendPricedIff(listing: Listing, original: Quote, payBy: Method, debited: int, input: ChangeInput)
    requires QuoteOk(original) && debited >= 0
    ensures ChangeQuote(listing, original, payBy, debited, Extend, input).Ok? <==>
      var n := |original.segments| - 1;
      var last := original.segments[n];
      && input.endMinute.Some? && last.end < input.endMinute.value <= 1440
      && var added := input.endMinute.value - last.end;
         var asked := AskedHours(original, input, original.duration + added);
         && 0 <= asked <= added
         && MakeQuote(listing, QuoteInput(Or(input.room, original.room),
                                          original.segments[n := last.(end := input.endMinute.value)],
                                          Or(input.dayOffice, original.dayOffice), AskedWay(Extend, input, payBy),
                                          debited + asked, []), debited).Ok?
  {
    hide MakeQuote, PairwiseDisjoint, PricingOk, Duration;
    if Extended(original.segments, input.endMinute).Ok? {
      ExtendedDuration(original.segments, input.endMinute);
      if ChangeRequest(original, payBy, debited, Extend, input).Ok? {
        var request := ChangeRequest(original, payBy, debited, Extend, input).value;
        if MakeQuote(listing, request, debited).Ok? {
          TimeAsked(listing, request, debited);
        }
      }
    }
  }

  /** A transfer is priced if and only if it asks for hours of the added time, and the new and the former booking can be priced. */
  lemma TransferPricedIff(listing: Listing, original: Quote, payBy: Method, debited: int, input: ChangeInput)
    requires |original.segments| > 0
    ensures ChangeQuote(listing, original, payBy, debited, Transfer, input).Ok? <==>
      var segments := Or(input.segments, original.segments);
      var duration := Duration(segments);
      var asked := AskedHours(original, input, duration);
      && 0 <= asked <= Max(0, duration - original.duration)
      && MakeQuote(listing, QuoteInput(Or(input.room, original.room), segments,
                                       Or(input.dayOffice, original.dayOffice), AskedWay(Transfer, input, payBy),
                                       Max(0, debited - Max(0, original.duration - duration)) + asked,
                                       Or(input.services, Requests(original.services))), debited).Ok?
      && MakeQuote(listing, AsItWas(original), 0).Ok?
  {
    hide MakeQuote, Duration;
    if ChangeRequest(original, payBy, debited, Transfer, input).Ok? {
      var request := ChangeRequest(original, payBy, debited, Transfer, input).value;
      if MakeQuote(listing, request, debited).Ok? {
        TimeAsked(listing, request, debited);
      }
    }
  }
}
