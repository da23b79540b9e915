# Verification of the booking and resident-hours engine

A Dafny model of the transactional core of a business centre's service: room bookings with online
holds, resident hours with a ledger, payments, invoices and their outbox, idempotent commands, and
three smaller parts beside it (support tickets, the office list as CSV, and the days a visit can be
booked for). `dafny verify dfyconfig.toml` checks the whole project.

## What is modelled

**Arithmetic.** `Calendar` is the proleptic Gregorian calendar, with the monthly accrual period of an
hours account, including the way `Date.UTC` reads the years 0 to 99. `Segments` normalises booked
time, `Catalog` prices it (money in minor units, time in minutes, rounding half up), and
`Fingerprint` is the canonical form behind a command's fingerprint.

**The engine.** The collections of the store are the fields of one value, `Records.Db`, with a clock
that never goes back. `Hours`, `Bookings` and `Payments` give each operation as a function from a
store to the store it commits or an error. `Machine` makes one transition system of them, `Invariants`
proves what every command, clock tick and profile change keeps, and `Theorems`, `Revisions`,
`Policies`, `Balances`, `Terms` and `Extensions` say what that means over every run. `Worker` is what the
periodic worker selects and does, and `Examples` one small room for the claims that need a concrete input.

**In plain terms.** What the operations do is stated a second time without their own definitions: `Slots` says
whose minutes are whose, `Quotas` what fills an account and what a quota that changes leaves of it, `Prices` and
`Changes` what a price is made of and what a change asks for, `Settlements` what becomes of money, and `Answers`
with which error each request is refused and what an accepted one writes.

**The engine in place.** `OperationsStore`, `OperationsBookings` and `OperationsPayments` are the
services as the source has them, with `OperationsWorker` for the periodic part of the payments service:
objects whose methods read and overwrite documents of a shared store in the source's order, return at the
first error, and loop where the source loops (room days, ledger rows, expired holds, policies, accounts).
Each method is proved to leave exactly the store its function gives, or to fail with the same error; a
failed command is rolled back. So every theorem about runs of the machine holds of the objects. `Effects`
says what a successful create, manual payment or change leaves behind, `Acceptance` exactly when operations
succeed, and `Requests` puts command keys in front of the engine: whatever is repeated happens once.

**Concurrency.** `RoomDays` runs commands as snapshot transactions that commit document by document,
first committer first, and uses the room-day and booking documents only. `Serial` adds the ownership
fence, which every command increments, and requests that read ahead of their transaction.

**Delivery.** `Commands` are receipts under races, retries and crashes; `Outbox` are invoice jobs with
leases, competing workers and lost replies; `Gateway` are provider payments with an idempotency key
that lives 24 hours.

**Assumptions.** Transactions read a snapshot, commit atomically and are refused when a document they
write has been written since; unique keys are unique; lease ids are drawn once. Hashing is injective.
The provider keeps one payment per key for 24 hours from the first request it receives, a request
reaches it within an hour of being sent or never, and a final status stays. Whether an actor is
permitted to run a command is not modelled: a command may simply not be issued.

## Findings

- The accrual period is right for every reset day and every date from the year 101 on, and fails for
  all earlier dates but some of the year 100: `Date.UTC` takes the years 0 to 99 for 1900 to 1999.
  `Calendar.PeriodsTileIff` gives the exact dates, `Calendar.PeriodOfYear50` an example.
- Attaching a provider's payment writes the booking without a new revision, so one revision can stand for
  two states of a booking (`Revisions.ProviderPaymentUnrevised`). `Revisions.RevisionTells` proves that
  this is the only way: the revision is unchanged if and only if all else is.
- A block is priced, a manual adjustment looks its profile up, and a payment is compared with what the
  provider reports, before any of them looks for a receipt, so a repeat of a request that succeeded can be
  refused (`Requests.BlockRepeatRefused`,
  `Requests.AdjustRepeatRefused`). `Requests.RepeatAnsweredIff` says exactly when it is answered. The
  services never delete a profile; the model lets one go.
- A new booking reads the demand of a prepayment before its transaction. A demand that is committed in
  between does not refuse it (`Policies.DemandRaced`, `Policies.UnreadDemandIgnored`); one that was there to
  be read does, in every run (`Policies.OverdueDemandsPrepayment`).
- The worker tests an account against the policy's quota only and skips one that a quota from office
  services has left behind (`Worker.ManualQuotaOverlooked`, exactly when: `Worker.SkippedCurrentIff`). And
  its renewal key names the day and the account's revision: after a renewal that had nothing to do, a change
  of quota on the same day is answered from the receipt (`OperationsWorker.RenewalAnswered`, such a day:
  `OperationsWorker.QuotaTwiceADay`). Both are made good by the next operation on the account.
- The worker reads a booking's policy before its transaction and applies it to the booking as it is by then.
  A postpaid booking that is changed to cash in between is shown as overdue, and a prepayment demanded of its
  profile (`Terms.CashShownOverdue`). A booking is shown as postpaid rightly unless that happens, in every run
  (`Terms.TermsInRuns`), and a tick does it exactly when the policy read is out of date and has moved on
  (`Terms.TickMislabelsIff`, `Terms.TickDemandsIff`).
- A pass follows two hundred payment policies in no order, and a booking stays among those found after it has
  been followed. With more than two hundred, the others keep what they show, and a later pass may find the
  same two hundred (`OperationsWorker.WorkerService.FollowPolicies`).
- The price fingerprint leaves out whether a room is let by the day (`Examples.MarkMissesMode`). Two quotes
  with one mark cost the same if and only if both are by the day or neither is, or the room costs the same for
  their time either way (`Catalog.MarkPriceIff`).
- The cap of one hour on the outbox back-off is never reached; the longest wait is 2560 seconds
  (`Outbox.BackoffBounds`).
- A row of the office list survives printing and reading exactly when its cells are trimmed and hold no
  line feed, its centre and number are not empty, its optional cells are absent or not empty, its email is
  in lower case, and its area is absent, or finite and not below zero (`OfficeCsv.RoundTripIff`). An area is
  stored without these checks (`backend/src/site-source/site-source.dto.ts:209-211`,
  `backend/src/site-source/site-source.service.ts:917`), printed, and refused on its line when it is read
  (`OfficeCsv.NegativeAreaRefused`, `OfficeCsv.PrintedReadBack`). A lone carriage return inside a cell does no harm.
- A balance can exceed the monthly quota, as when a booking is cancelled after a renewal
  (`Balances.QuotaExceeded`). In every run that happens only after a credit that no renewal has followed
  (`Balances.BalanceWithinQuota`); a movement leaves the balance within the quota if and only if it is no more
  than what is missing to it (`Balances.MovementWithinIff`).
- A quota that changes within a period leaves the new quota less what bookings have spent, so it forgets movements
  made for nobody and cuts a balance that was above the former quota (`Quotas.QuotaChanged`,
  `Quotas.QuotaMovesBalance`, an instance: `Quotas.QuotaRises`).
- A manual credit can take back the hours of a confirmed booking (`Balances.CoverLost`), exactly when it is more
  than what is debited beyond them (`Balances.CreditKeepsCoverIff`). In every run without a manual credit for it
  a confirmed booking has its hours debited (`Balances.ConfirmedStaysCovered`).

## Model

| member | source | states |
|---|---|---|
| Calendar.PeriodsTileIff | backend/src/operations/operations.rules.ts:249-270 | The accrual period holds today, has the same value on each of its days, ends the day before its successor, and the successor starts its own period, if and only if the date does not reach back into the years 0 to 99 |
| Calendar.RegularTiles | backend/src/operations/operations.rules.ts:249-270 | For such dates: over short months, leap years and year ends, for reset days 1 to 31, periods tile the calendar |
| Calendar.PeriodOfYear50 | backend/src/operations/operations.rules.ts:254-269 | A date of the year 50 gets a period of 1950, so its periods do not tile |
| Calendar.KnownDays | backend/src/operations/operations.rules.ts:149-158 | The last days of the months, leap years and day numbers where they are known |
| Calendar.SamePeriod | backend/src/operations/operations.rules.ts:249-270 | Every day from the start of a period up to its successor has that same period |
| Calendar.NextPeriodStarts | backend/src/operations/operations.rules.ts:262-269 | The period of the next renewal day starts on that day |
| BookableDates.GetBookableVisitDates | backend/src/common/bookable-visit-dates.ts:40-58 | For a day as the clock gives it, the loop returns the first open days from it on, as many as asked for, or all of three weeks when that is fewer |
| BookableDates.ScanHoldsThreeWeeks | backend/src/common/bookable-visit-dates.ts:49-55 | 21 days hold exactly three of each open weekday, so the cap never cuts three days short unless all weekdays are closed |
| BookableDates.AssertVisitDateBookable | backend/src/common/bookable-visit-dates.ts:60-80 | A date is accepted if and only if it is open, not past, and fewer than three open days lie before it; it is refused as past exactly when it is, and as no date exactly when it is none of the years 100 to 9999 |
| BookableDates.OpenDatesMembers | backend/src/common/bookable-visit-dates.ts:33-58 | The open days of a stretch are exactly its days whose weekday is not closed |
| BookableDates.OpenDatesOrdered | backend/src/common/bookable-visit-dates.ts:49-55 | They come in calendar order without repetition |
| BookableDates.AddDaysOrdinal | backend/src/common/visit-date.ts:31-36 | Adding days moves a date by that many days of the calendar |
| BookableDates.KnownWeekdays | backend/src/common/bookable-visit-dates.ts:28-31 | Weekdays are those of the calendar, from a known day on |
| Segments.NormalizeIff | backend/src/operations/operations.rules.ts:159-192 | Segments are accepted if and only if there are 1 to 100, each well formed on its step, and no two overlap on any day; the result is a sorted permutation of them |
| Segments.NeighboursIffPairwise | backend/src/operations/operations.rules.ts:181-190 | In sorted order, comparing each segment with its predecessor alone finds every overlap |
| Segments.DurationCountsMinutes | backend/src/operations/operations.catalog.ts:91-92 | The summed lengths of accepted segments are the number of distinct minutes they cover |
| Segments.OverlapSharesMinute | backend/src/operations/operations.bookings.ts:232-240 | The overlap test holds exactly when the two bookings share a minute |
| Slots.ConflictIsTaken | backend/src/operations/operations.rules.ts:193-210 | The availability query finds a conflict if and only if another booking of the room that is awaiting payment or confirmation, confirmed, paid, shut or held until later has one of the minutes |
| Slots.OpenTakenIff | backend/src/operations/operations.bookings.ts:213-255 | A new booking is refused for its time if and only if such a booking has one of its minutes; a guest's request never is |
| Slots.ChangeTakenIff | backend/src/operations/operations.bookings.ts:213-255 | A change is refused for its time if and only if another such booking has one of the new minutes |
| Slots.BlockTakenIff | backend/src/operations/operations.bookings.ts:1237-1280 | A block that can be priced is refused if and only if such a booking has one of its minutes; else it is stored and keeps its time |
| Slots.BlockRefuses | backend/src/operations/operations.bookings.ts:213-255 | A standing block refuses a new booking, a change of another booking and another block that want a minute of it |
| Slots.ConfirmTaken | backend/src/operations/operations.bookings.ts:693-705 | No booking is confirmed in time that another such booking has |
| Slots.SlotShows | backend/src/operations/operations.bookings.ts:283-301 | A slot that is not free shows a live booking of its minutes: shut off, on hold until when, paid for, or reserved |
| Slots.OpenMarks | backend/src/operations/operations.bookings.ts:202-255 | A new booking counts up the room-day of each of its days once and no other; a guest's request none |
| Slots.ActionMarks | backend/src/operations/operations.bookings.ts:681-869 | Confirming, taking a payment, cancelling and expiring count up the room-days of the booking's days |
| Slots.ChangeMarks | backend/src/operations/operations.bookings.ts:1074-1100 | A change counts up the days of the former time and of the new |
| Slots.MoneyMarks | backend/src/operations/operations.payments.ts:464-475 | A payment that has come in counts up the days of its booking, whatever becomes of it |
| Catalog.PerHourNearest | backend/src/operations/operations.catalog.ts:104-106 | An hourly price is the exact price to the nearest minor unit, halves going up |
| Catalog.QuoteSound | backend/src/operations/operations.catalog.ts:84-226 | Every quote balances: total is base plus services less a discount between 0 and the base, hours between 0 and the duration; hours for all of it leave the services only, and no hours no discount |
| Catalog.MoreHoursNeverDearer | backend/src/operations/operations.catalog.ts:197-201 | Writing off more hours never costs more money |
| Catalog.SelectServices | backend/src/operations/operations.catalog.ts:139-186 | The checking loop selects what the list of requests selects, or fails at its first fault |
| Catalog.SelectedIff | backend/src/operations/operations.catalog.ts:139-190 | Services are selected if and only if each is offered, active, well counted and named once; the lines are those of the requests in order, at the service's price (`Prices.ServicesPriced`) |
| Catalog.FirstErrorWins | backend/src/operations/operations.catalog.ts:139-190 | A fault in a prefix of the requests is the error reported, whatever follows |
| Prices.ServicesPriced | backend/src/operations/operations.catalog.ts:172-190 | Services of every accepted quote: a flat line is price times quantity, an hourly one the rounded price times quantity, and they are added up |
| Prices.TimeAsked | backend/src/operations/operations.catalog.ts:84-103 | The time of every accepted quote is the time asked for, within days and working hours and on the step of the room |
| Prices.TimeInOrder | backend/src/operations/operations.rules.ts:176-191 | The segments come day by day and each after the end of the one before |
| Prices.TimePriced | backend/src/operations/operations.catalog.ts:104-115 | Time costs the hourly price, rounded once for all of it, or the flat price once, or by the day the daily price for each day |
| Prices.HoursWritten | backend/src/operations/operations.catalog.ts:116-138 | The hours written off are those asked for, or all the time when the balance pays, and the money for the time is the price of the rest |
| Prices.PricedIff | backend/src/operations/operations.catalog.ts:84-201 | A request is priced if and only if room, time, working hours, prices, hours and services are as they must be, and the balance is to pay for time only |
| Prices.RefusedFor | backend/src/operations/operations.catalog.ts:84-201 | A refusal of a price names its reason |
| Prices.MarkTells | backend/src/operations/operations.catalog.ts:219-225 | Two price marks are one exactly when listing, room, time, lines and hours are the same |
| Catalog.ChangeSound | backend/src/operations/operations.bookings.ts:948-1029 | An edited, transferred or extended booking still balances, and a transfer or an extension never lowers the total |
| Catalog.ExtendAdds | backend/src/operations/operations.bookings.ts:958-1012 | An extension lengthens the booking and adds to the base the price of the added time alone |
| Catalog.ExtendCharges | backend/src/operations/operations.bookings.ts:984-1018 | An extension is free when added hours cover all its added time, and costs its full price when none are added |
| Catalog.TransferCharges | backend/src/operations/operations.bookings.ts:976-1018 | A transfer to what costs no more than the former booking would cost now is free; otherwise it costs the difference at most, and exactly the difference without added hours |
| Changes.EditAsks | backend/src/operations/operations.bookings.ts:945-957 | An edit asks for the fields it carries and for the booking's own in place of the others |
| Changes.ExtendAsks | backend/src/operations/operations.bookings.ts:951-1018 | An extension ends the last segment later; it writes off the hours asked for on top of those debited, or all added time when the balance pays, charges the rest of the added time, and keeps all else |
| Changes.TransferAsks | backend/src/operations/operations.bookings.ts:958-1018 | A transfer keeps the debited hours less the time given up, adds those asked for, and charges what the time costs more than the former would now, less their worth, and what the services cost more |
| Changes.TooManyHoursRefused | backend/src/operations/operations.bookings.ts:964-973 | Hours for more than the added time are refused |
| Changes.NoLaterEndRefused | backend/src/operations/operations.bookings.ts:951-957 | An extension that does not end later, or by midnight, is refused |
| Changes.EditPricedIff | backend/src/operations/operations.bookings.ts:937-983 | An edit is priced, or refused, as the booking with its fields |
| Changes.ExtendPricedIff | backend/src/operations/operations.bookings.ts:951-983 | An extension is priced if and only if it ends later and by midnight, asks for hours of the added time, and the longer booking can be priced |
| Changes.TransferPricedIff | backend/src/operations/operations.bookings.ts:958-1003 | A transfer is priced if and only if it asks for hours of the added time, and the new and the former booking can be priced |
| Extensions.DriftInRuns | backend/src/operations/operations.bookings.ts:998-1018 | In every run in which an hourly booking is changed by extensions only, 60 times its base differs from price times minutes by at most 30(n + 1), n being the extensions accepted |
| Extensions.ExtensionStep | backend/src/operations/operations.bookings.ts:958-1018 | One accepted extension lengthens the stored booking in its room and moves its base by the price of the added time, to half a minor unit |
| Catalog.MarkFixesPrice | backend/src/operations/operations.catalog.ts:219-225 | Under one listing, two quotes with one price mark cost the same, as long as both are by the day or neither is |
| Catalog.MarkPriceIff | backend/src/operations/operations.catalog.ts:219-225 | Under one listing, two quotes with one price mark cost the same if and only if both are by the day or neither is, or the room costs the same for their time by the day and by the hour |
| Examples.MarkMissesMode | backend/src/operations/operations.catalog.ts:219-225 | One hour of a room, by the hour and by the day, has one mark and two prices |
| Fingerprint.CanonicalIff | backend/src/operations/operations.rules.ts:228-242 | Two payloads have one canonical form if and only if they differ only in the order of object keys, at any depth |
| Commands.SameFormIff | backend/src/operations/operations.store.ts:139-140 | Two commands have one fingerprint if and only if their operation is the same and their payloads differ only in key order |
| Commands.CommandStore.Command | backend/src/operations/operations.store.ts:129-174 | A key with a receipt is answered from it and changes nothing, even while writes are paused; another payload is a conflict; otherwise the body takes effect once, or the receipt of the call that won the race answers |
| Commands.AtMostOnce | backend/src/operations/operations.store.ts:129-174 | In every interleaving of duplicates, retries, crashes and pauses, a key takes effect at most once |
| Commands.OneAnswer | backend/src/operations/operations.store.ts:143-154 | All successful answers to a key are the same stored result, given for one fingerprint |
| Commands.ReplayAnswers | backend/src/operations/operations.store.ts:129-174 | In every run after a key has its receipt, pauses of writing included, each later call of the key that is answered gets the stored result, or a conflict when its payload differs; the receipt stays and the key takes effect no more |
| Commands.AnswerIs | backend/src/operations/operations.store.ts:111-128 | A receipt answers with its result, and the payload it was given for only |
| Commands.CallTakesEffect | backend/src/operations/operations.store.ts:129-174 | A call of a key nobody has used runs, commits and is answered; while writes are paused it is refused |
| Commands.LoserAnswered | backend/src/operations/operations.store.ts:160-174 | A call that loses the race is tried once more and answered from the receipt |
| Hours.EnsureIdempotent | backend/src/operations/operations.hours.ts:24-180 | Bringing an account up to date twice at one moment adds no row and changes nothing the second time |
| Hours.EnsureFacts | backend/src/operations/operations.hours.ts:24-180 | Bringing an account up to date adds at most one row, of that account and of no booking, keeps the ledger chained, and leaves every booking's debits less credits as they were |
| Hours.WholeBalanceSpendable | backend/src/operations/operations.hours.ts:24-189 | After it, an active owner can spend the whole balance |
| Hours.LazyIsDaily | backend/src/operations/operations.hours.ts:79-114 | For an active owner with an unchanged policy and no movements, one call after any number of days leaves the balance and dates that a call on each day leaves |
| Hours.ChangeHoursFacts | backend/src/operations/operations.hours.ts:249-293 | A movement adds one row of its kind and amount for its booking, moves that booking's net hours and no other's, and keeps the ledger chained to non-negative balances |
| Hours.ChainExplainsBalance | backend/src/operations/operations.hours.ts:220-293 | In a chained ledger an account's last balance is that of its last renewal or policy change plus credits less debits since, and is not negative |
| Quotas.QuotaMeaning | backend/src/operations/operations.hours.ts:32-47 | The offices' quota goes before the policy's, an owner's is never negative and nobody else has one; the reset day is one of a month |
| Quotas.FilledWhenDue | backend/src/operations/operations.hours.ts:49-114 | An account is opened full, and an active owner's is filled on its renewal day, whatever was left of it |
| Quotas.OthersUnfilled | backend/src/operations/operations.hours.ts:79-84 | An account of nobody active or of no owner is left as it is |
| Quotas.ResetDayKeepsBalance | backend/src/operations/operations.hours.ts:115-178 | Another reset day alone leaves the balance and the quota |
| Quotas.QuotaChanged | backend/src/operations/operations.hours.ts:115-178 | Another quota within a period leaves the new quota less what the balance was short of the former one, movements for nobody apart |
| Quotas.QuotaMovesBalance | backend/src/operations/operations.hours.ts:115-178 | When all movements were for bookings, another quota moves the balance by exactly the difference, down to 0 at the least; a balance above the former quota is cut to the new one |
| Quotas.QuotaRises | backend/src/operations/operations.hours.ts:115-178 | Ten hours less one become fifteen less one, whether an hour was taken by hand or not |
| Quotas.MovementAnswers | backend/src/operations/operations.hours.ts:249-272 | A movement is refused without an owner, beyond what can be spent, or when the balance would be no safe integer, in this order, and else made |
| Quotas.MovementMoves | backend/src/operations/operations.hours.ts:272-293 | A movement changes the balance of its account, once up to date, by its amount, and appends that one row |
| Quotas.LapsedHoursUnspendable | backend/src/operations/operations.hours.ts:181-189 | The hours of a period that is over cannot be spent |
| Quotas.NetCounts | backend/src/operations/operations.hours.ts:379-403 | A booking's hours are the debits less the credits made for it on its owner's account |
| OperationsStore.Store.AssertWritable | backend/src/operations/operations.store.ts:84-97 | A write counts up the fence when writes are on, and is refused with nothing written when they are off |
| OperationsStore.Store.NextBookingId | backend/src/operations/operations.store.ts:175-182 | Ids are drawn from the counter once each |
| OperationsStore.HoursService.Ensure | backend/src/operations/operations.hours.ts:24-180 | The account opened, renewed or adjusted in place, with its ledger row, is exactly what the specification gives, and is what is returned |
| OperationsStore.HoursService.Change | backend/src/operations/operations.hours.ts:249-293 | The balance overwritten and the row appended are those of the specification; too little balance fails with the source's errors |
| OperationsStore.HoursService.RefundableHours | backend/src/operations/operations.hours.ts:379-403 | The fold over the ledger gives the booking's debits less credits on its owner's account, never below zero |
| OperationsStore.HoursService.Refund | backend/src/operations/operations.hours.ts:404-422 | What is credited is what is outstanding, and nothing when nothing is |
| OperationsStore.HoursService.Adjust | backend/src/operations/operations.hours.ts:294-378 | A manual movement checks revision, booking and refundable hours in the source's order, then moves hours and rewrites the booking's recorded hours |
| OperationsBookings.BookingsService.LockDays | backend/src/operations/operations.bookings.ts:202-212 | Each distinct day of the segments has its room-day counted up once, and no other |
| OperationsBookings.BookingsService.AssertAvailable | backend/src/operations/operations.bookings.ts:213-255 | The days are marked before the conflict check, which fails if and only if another blocking booking of the room overlaps |
| OperationsBookings.BookingsService.Find | backend/src/operations/operations.rules.ts:243-248 | A booking is read, or refused as unknown or as changed since the caller saw it |
| OperationsBookings.BookingsService.ReadAhead | backend/src/operations/operations.bookings.ts:417-452 | What a request reads before its transaction is the moment and the demands of a prepayment as they are then |
| OperationsBookings.BookingsService.Create | backend/src/operations/operations.bookings.ts:417-470 | A new booking is refused or priced by what was read ahead, in the source's order, a price that has changed included, and then opened on the store as it is by then |
| OperationsBookings.BookingsService.Open | backend/src/operations/operations.bookings.ts:460-614 | The transaction of a new booking: slot, then hours debited now or only looked at for a hold, then the document |
| OperationsBookings.BookingsService.Confirm | backend/src/operations/operations.bookings.ts:693-716 | Confirming in place does what the specification says, with its errors in order |
| OperationsBookings.BookingsService.MarkPaid | backend/src/operations/operations.bookings.ts:717-776 | A manual payment of what is outstanding is recorded, and the booking settled by whether its time is free |
| OperationsBookings.BookingsService.ResolveAttention | backend/src/operations/operations.bookings.ts:777-801 | Attention is cleared only outside an open conflict and with the hours covered |
| OperationsBookings.BookingsService.Comment | backend/src/operations/operations.bookings.ts:802-813 | A comment counts a revision and changes nothing the model keeps |
| OperationsBookings.BookingsService.CancelByAdmin | backend/src/operations/operations.bookings.ts:681-692 | An administrator cancels from any state, under a current revision |
| OperationsBookings.BookingsService.CancelInTransaction | backend/src/operations/operations.bookings.ts:827-869 | Cancelling in place marks the days, refunds the hours and rewrites the booking as specified; twice changes nothing |
| OperationsBookings.BookingsService.CancelByCustomer | backend/src/operations/operations.bookings.ts:870-924 | A customer cancels from the listed states only, and a resident not after the end |
| OperationsBookings.BookingsService.Change | backend/src/operations/operations.bookings.ts:925-1073 | An edit, transfer or extension is priced and checked in the source's order before its transaction |
| OperationsBookings.BookingsService.AdjustHours | backend/src/operations/operations.bookings.ts:1076-1109 | Hours are debited or given back so that the new write-off is what is outstanding, or refused without an owner |
| OperationsBookings.BookingsService.ApplyChange | backend/src/operations/operations.bookings.ts:1074-1186 | The transaction of a change: old and new days marked, availability, hours, payment method, then the rewritten booking |
| OperationsBookings.BookingsService.BlockRoom | backend/src/operations/operations.bookings.ts:1237-1280 | A block takes free time only, priced without services or hours |
| OperationsPayments.PaymentsService.Succeed | backend/src/operations/operations.payments.ts:464-526 | A received payment is recorded first; slot, remainder and late hours then give the booking of the specification |
| OperationsPayments.PaymentsService.DebitLate | backend/src/operations/operations.payments.ts:476-505 | Hours held back are debited once, only for a booking that is fully paid and has its time; too few hours are reported, not refused |
| OperationsPayments.PaymentsService.AttachProviderPayment | backend/src/operations/operations.payments.ts:322-375 | A provider payment of the intent's amount is recorded once and written to its booking, without a new revision; another amount or currency is a mismatch |
| OperationsPayments.PaymentsService.FlagUncertain | backend/src/operations/operations.payments.ts:285-303 | A payment of unknown outcome flags its booking, in any state, with a new revision |
| OperationsPayments.PaymentsService.ReceiveResult | backend/src/operations/operations.payments.ts:425-551 | A result for the recorded amount is applied to the payment and its booking as specified, paid payments staying paid on a cancellation; another amount is a mismatch |
| OperationsPayments.PaymentsService.Expire | backend/src/operations/operations.payments.ts:890-911 | A hold is cancelled exactly when its time is over |
| OperationsPayments.PaymentsService.IssueInvoice | backend/src/operations/operations.payments.ts:690-699 | An invoice number is written to a booking that is not cancelled |
| OperationsPayments.PaymentsService.TickPolicy | backend/src/operations/operations.payments.ts:914-994 | A payment policy that has moved on is written to the booking, and an overdue postpayment to the profile |
| OperationsPayments.Operations.Command | backend/src/operations/operations.store.ts:98-174 | A command counts up the fence and runs its body, and leaves the store as it was when either fails: one step of the machine |
| OperationsPayments.Operations.Dispatch | backend/src/operations/operations.store.ts:155 | Each command runs the body of its own operation |
| OperationsPayments.Operations.Handle | backend/src/operations/operations.store.ts:129-174 | A request is first looked up or priced as its operation does, then answered from its receipt, then checked, and then run and recorded when it succeeds |
| OperationsWorker.WorkerService.Tick | backend/src/operations/operations.payments.ts:799-1040 | One pass over holds, policies and accounts is a run of commands that keeps every invariant; when it ends well, no lapsed hold is left if it found at most twenty, every followed booking shows how late its payment is if there are at most two hundred, and every active owner's account is current unless the worker's own test does not see it or the day's renewal was answered before |
| OperationsWorker.WorkerService.Step | backend/src/operations/operations.payments.ts:891-911 | Each command of the worker is a step of the run, and leaves clock, profiles and the write switch |
| OperationsWorker.WorkerService.ExpireHolds | backend/src/operations/operations.payments.ts:883-913 | Each lapsed hold found is expired after its payment has been polled; none is left when at most twenty were found, and no renewal is recorded |
| OperationsWorker.WorkerService.Poll | backend/src/operations/operations.payments.ts:394-463 | A polled result is answered from the receipt of an earlier poll or webhook, when nothing changes, or is applied as one step of the run; it makes no lapsed hold and records no renewal |
| OperationsWorker.WorkerService.FollowPolicies | backend/src/operations/operations.payments.ts:914-994 | After the loop the bookings that were followed, two hundred or all that are tracked when they are fewer, show their lateness, and every other booking is as it was; the same bookings are tracked as before |
| OperationsWorker.WorkerService.FollowPolicy | backend/src/operations/operations.payments.ts:923-993 | The policy of one booking is made current, every other booking stays, and the same bookings are tracked as before |
| OperationsWorker.WorkerService.RenewAccounts | backend/src/operations/operations.payments.ts:995-1036 | After the loop every active owner's account is current, or skipped by the worker's test, or was answered from the day's receipt |
| OperationsWorker.WorkerService.Renew | backend/src/operations/operations.payments.ts:1018-1034 | One renewal makes its account current and touches nothing else, unless its key has a receipt, when nothing changes |
| Worker.FollowOne | backend/src/operations/operations.payments.ts:923-993 | Following one policy makes it current and leaves every other booking and what is followed as they are |
| Worker.RenewOne | backend/src/operations/operations.hours.ts:79-178 | Bringing one account up to date makes it current and touches no other account and no booking |
| Worker.CurrentIff | backend/src/operations/operations.hours.ts:79-178 | An account has nothing to be brought up to date if and only if it is current in date, quota and reset day |
| Worker.SkippedCurrentIff | backend/src/operations/operations.payments.ts:1009-1017 | An account the worker skips is current if and only if no quota from office services stands against the policy's |
| Worker.CurrentSkippedIff | backend/src/operations/operations.payments.ts:1009-1017 | A current account is skipped if and only if the policy's own quota is what it has, and its reset day one of a month or none |
| Worker.ManualQuotaOverlooked | backend/src/operations/operations.payments.ts:1009-1017 | An account that the worker skips and that is not current |
| OperationsWorker.RenewalAnswered | backend/src/operations/operations.payments.ts:1018-1034 | An account that the worker selects and renews without effect, and selects again after a new quota on the same day, is then answered from the receipt and stays behind the quota |
| OperationsWorker.QuotaTwiceADay | backend/src/operations/operations.payments.ts:1009-1034 | Such a day: ten hours by the policy, fifteen and then twenty by the offices |
| Worker.RenewKeyNames | backend/src/operations/operations.payments.ts:1018-1024 | Renewal keys of different accounts differ |
| Worker.PeriodicLapses | backend/src/operations/operations.payments.ts:883-913 | No command of the worker makes a lapsed hold, and expiring one ends it |
| Machine.BodyGuarded | backend/src/operations/operations.bookings.ts:202-255 | Every command writes one booking at most, and if that booking comes to occupy time, the time was free and each of its room-days has been written |
| Machine.BodyKeepsEnvironment | backend/src/operations/operations.store.ts:84-97 | No command body touches the clock, the profiles or the ownership document, or takes back a demand of prepayment |
| Machine.GuardedKeepsDisjoint | backend/src/operations/operations.bookings.ts:213-255 | A command that so guards its booking keeps blocking bookings of a room apart |
| Machine.TimeKeepsDisjoint | backend/src/operations/operations.rules.ts:193-210 | Time passing only ends occupation |
| Invariants.BodyInv | backend/src/operations/operations.bookings.ts:400-1280 | Every command keeps all invariants: prices balance, an expiry exactly on holds, paid means covered, hours exact, ledger chained, rooms apart |
| Invariants.RunInv | backend/src/operations/operations.bookings.ts:400-1280 | All invariants hold after every run of commands, clock ticks and profile changes from an empty store |
| Theorems.NeverDoubleBooked | backend/src/operations/operations.rules.ts:193-210 | In every run, with holds that expire, are overtaken and then paid, two blocking bookings of a room never share a minute |
| Slots.LiveApart | backend/src/operations/operations.rules.ts:193-210 | In every run two bookings of a room that keep their time, listed state by state, have no minute in common |
| Slots.BlockedRoomShut | backend/src/operations/operations.rules.ts:193-210 | In every run, while a block stands, no other booking that keeps its time has a minute of it |
| Slots.LapsedIff | backend/src/operations/operations.payments.ts:883-889 | In every run the worker's query finds exactly the holds that keep their time no longer |
| Slots.GridShowsTaken | backend/src/operations/operations.bookings.ts:256-309 | In every run a stretch of slots is shown as free if and only if no booking that keeps its time has a minute of it |
| Theorems.HoursConserved | backend/src/operations/operations.hours.ts:379-422 | In every run, a booking's recorded hours are its ledger debits less credits, never negative, so the clamp in the refund never bites |
| Theorems.LedgerExplainsBalances | backend/src/operations/operations.hours.ts:220-293 | In every run the ledger is a chain, each balance is explained by its rows since the last reset, and none is negative |
| Theorems.PaidMeansCovered | backend/src/operations/operations.payments.ts:475-526 | In every run, paid means recorded payments cover the current total, confirmed means paid or postpaid, and the price balances, however totals grow |
| Theorems.CancelledForever | backend/src/operations/operations.bookings.ts:681-692 | A cancelled booking stays cancelled in every run, and unless hours are moved for it by hand its net hours never change |
| Theorems.CancelReturnsHours | backend/src/operations/operations.bookings.ts:827-869 | Cancelling gives back exactly the outstanding hours, in the one new row of the booking, no money, and asks for attention exactly when money was received |
| Theorems.PaymentLeavesCancelled | backend/src/operations/operations.payments.ts:457-526 | A payment that arrives after cancellation is recorded and flagged, moves no hours and revives nothing |
| Theorems.LatePaymentRevivesIffFree | backend/src/operations/operations.payments.ts:464-516 | A late payment makes a hold block again if and only if its time is still free; otherwise it awaits resolution, flagged, with no hours moved; it is paid exactly when payments cover the total |
| Balances.ConfirmedStaysCovered | backend/src/operations/operations.bookings.ts:674-716 | In every run without a manual credit for it, a confirmed booking has the hours of its quote debited |
| Balances.CreditKeepsCoverIff | backend/src/operations/operations.hours.ts:294-378 | A manual credit leaves a confirmed booking covered if and only if it is no more than what is debited beyond the hours of its quote |
| Balances.CoverLost | backend/src/operations/operations.hours.ts:294-378 | A run in which a booking paid with an hour is confirmed and the hour then credited by hand |
| Balances.BalanceWithinQuota | backend/src/operations/operations.hours.ts:79-293 | In every run a balance is above the quota only after a credit that no renewal has followed |
| Balances.MovementWithinIff | backend/src/operations/operations.hours.ts:249-293 | A movement leaves the balance within the quota if and only if it is no more than what the account, once up to date, is short of it |
| Balances.QuotaExceeded | backend/src/operations/operations.hours.ts:404-422 | A run in which a booking paid with an hour of one month is cancelled in the next: 660 minutes on a quota of 600 |
| Revisions.HoldLastsInRuns | backend/src/operations/operations.bookings.ts:386-392 | In every run a hold made at a moment blocks its time until fifteen minutes later, to the second, and no longer, for as long as it is a hold |
| Revisions.DealKept | backend/src/operations/operations.bookings.ts:1110-1164 | In a run that does not change it, a booking keeps its quote and its terms of payment |
| Revisions.PostpaidInRuns | backend/src/operations/operations.rules.ts:302-306 | In every run that does not change it, a postpaid booking that the worker has followed is due for a warning from the third day after it was made and overdue from the seventh, to the second |
| Revisions.RevisionTells | backend/src/operations/operations.rules.ts:243-248 | Over every run a booking is never lost and its revision never falls; the revision is unchanged if and only if the booking is, the provider's payment apart; and what is a hold has been that hold all along |
| Revisions.ProviderPaymentUnrevised | backend/src/operations/operations.payments.ts:362-371 | A run in which a booking changes without a new revision, because its payment is attached, and a comment that shows the earlier revision is accepted |
| Revisions.StaleCallerRefused | backend/src/operations/operations.rules.ts:243-248 | No lost update: a command that shows a revision is refused, and changes nothing, once anything but the provider's payment has changed since |
| Revisions.CommentAcceptedIff | backend/src/operations/operations.bookings.ts:802-813 | A comment is accepted if and only if nothing but the provider's payment has changed since its revision was shown |
| Policies.InvoiceTimeline | backend/src/operations/operations.rules.ts:289-301 | An invoice is overdue exactly from the earlier of the end of its term and its lead before the start, so always by the start |
| Policies.OverdueDemandsPrepayment | backend/src/operations/operations.payments.ts:963-975 | Once a postpayment is found overdue, every booking of that profile by cash, invoice or postpayment is refused in every run, if its request reads the demands after the worker's commit |
| Policies.UnreadDemandIgnored | backend/src/operations/operations.bookings.ts:417-426 | A demand that a request has not read does not refuse it: the booking made is the same whatever the demands are by the time of its transaction |
| Policies.DemandRaced | backend/src/operations/operations.bookings.ts:417-426 | A run in which a request reads no demand, the worker commits one, and a postpaid booking of the same profile is then stored |
| Terms.TermsInRuns | backend/src/operations/operations.rules.ts:272-308 | In every run a booking's policy is that of the way it is paid; and it is shown as postpaid only when it is paid later, as long as no policy that is out of date has been applied to it |
| Terms.TickMislabelsIff | backend/src/operations/operations.payments.ts:923-962 | The worker shows a booking as postpaid that is not paid later if and only if the policy it read is a postpayment, the booking is not paid later any more, and the policy has moved on |
| Terms.TickDemandsIff | backend/src/operations/operations.payments.ts:963-975 | The worker demands a prepayment of a profile if and only if the policy it read is an overdue postpayment that can be applied to a booking of that profile |
| Terms.FollowedIff | backend/src/operations/operations.payments.ts:914-922 | In every run the worker follows exactly the live unpaid bookings by invoice or to be paid later |
| Terms.CashShownOverdue | backend/src/operations/operations.payments.ts:923-975 | A run in which a booking is changed to cash between the worker's read and its transaction, is shown as overdue, and its profile is asked for prepayment |
| Effects.CreateOpens | backend/src/operations/operations.bookings.ts:369-614 | A new booking blocks its time at once, and had it for itself, unless it is a guest's request; its hours are debited except for a hold; it is paid only when it costs nothing |
| Effects.ManualPaymentCovers | backend/src/operations/operations.bookings.ts:717-776 | A payment by hand brings the payments to the total exactly, never above; the booking blocks, and stays confirmed, if and only if its time is free |
| Effects.ChangeRebalances | backend/src/operations/operations.bookings.ts:1058-1186 | A change leaves exactly the hours of the new quote debited, moves no money, gives the booking its new time for itself, and leaves it paid if and only if the payments cover the new total |
| Answers.CreateRefused | backend/src/operations/operations.bookings.ts:417-452 | Before its transaction a booking is refused for a demanded prepayment, its price, its past time or a changed price, in this order |
| Answers.OpenAnswers | backend/src/operations/operations.bookings.ts:460-606 | The transaction of a new booking is refused without an owner for its hours, for taken time, or when its hours cannot be spent, in this order |
| Answers.CreateStarts | backend/src/operations/operations.bookings.ts:369-398 | How a new booking starts by the way it is paid: a guest asks, by cash or else invoice; what costs nothing is paid; card and QR code hold it for a quarter of an hour; the rest waits for payment |
| Answers.CreateTerms | backend/src/operations/operations.rules.ts:272-308 | The terms of a new booking: a postpayment in a week with a warning on the third day, an invoice by its term or its lead |
| Answers.ConfirmAnswers | backend/src/operations/operations.bookings.ts:674-716 | Each refusal of a confirmation in order, and what an accepted one writes |
| Answers.MarkPaidAnswers | backend/src/operations/operations.bookings.ts:717-776 | A payment by hand is accepted for cash, invoice and postpayment only, and records what is short of the total as one payment |
| Answers.ResolveAnswers | backend/src/operations/operations.bookings.ts:777-801 | Attention is taken off except from an open conflict and from a live booking short of hours |
| Answers.CommentAnswers | backend/src/operations/operations.bookings.ts:802-813 | A comment asks for the revision only |
| Answers.CancelAnswers | backend/src/operations/operations.bookings.ts:827-869 | A booking is cancelled, unless it is already, or its hours cannot be given back, for a stated reason; attention is asked for when money was received |
| Answers.AdminCancelAnswers | backend/src/operations/operations.bookings.ts:681-692 | An administrator cancels any booking whose revision he has seen |
| Answers.CustomerCancelAnswers | backend/src/operations/operations.bookings.ts:870-924 | A customer cancels in the listed states only, and a resident not what is over |
| Answers.AdjustAnswers | backend/src/operations/operations.hours.ts:294-350 | Each refusal of a manual movement in order |
| Answers.AdjustMovesBalance | backend/src/operations/operations.hours.ts:350-378 | A manual movement takes or gives exactly its amount; for nobody it touches no booking, for a booking it moves the recorded hours of that one |
| Answers.ChangeRefused | backend/src/operations/operations.bookings.ts:925-1073 | Each refusal of a change before its transaction, then for revision and state, in order |
| Answers.ChangeAnswers | backend/src/operations/operations.bookings.ts:1074-1140 | The transaction of a change is refused when its time is taken, its hours cannot follow, or the way of payment is not allowed for what is due, in this order, and else succeeds |
| Answers.ChangeWrites | backend/src/operations/operations.bookings.ts:1140-1186 | What a change writes: price, hours and terms, a wait for payment when payments fall short, and attention when they exceed the total |
| Settlements.PaidCounts | backend/src/operations/operations.bookings.ts:80-87 | Only payments that have come in count, each for its own booking |
| Settlements.ResultAnswers | backend/src/operations/operations.payments.ts:394-424 | A result is taken for a recorded payment of the amount reported only |
| Settlements.CancelledResult | backend/src/operations/operations.payments.ts:434-455 | A payment cancelled at the provider ends its hold at once and leaves every other booking untouched; it is void unless it had come in |
| Settlements.SucceededResult | backend/src/operations/operations.payments.ts:456-526 | A payment that has come in is recorded in any state; the booking is paid exactly when covered, keeps or gets its place exactly when its time is free, and takes hours held back when they can be spent |
| Settlements.MoneyRefused | backend/src/operations/operations.payments.ts:456-526 | Money is kept out only when hours are due and their owner is gone, or his balance is no safe integer |
| Settlements.AttachedPayment | backend/src/operations/operations.payments.ts:322-375 | A provider's payment is recorded once, as pending, for the amount of the intent, and named on its booking |
| Settlements.FlaggedPayment | backend/src/operations/operations.payments.ts:285-303 | A payment of unknown outcome asks for attention in any state |
| Settlements.ExpiredHold | backend/src/operations/operations.payments.ts:890-911 | A hold is cancelled exactly when its time is over |
| Settlements.PolicyMovesOn | backend/src/operations/operations.payments.ts:923-975 | A policy that has moved on is written with the status of the same name; only an overdue postpayment makes a demand |
| Settlements.InvoiceNamed | backend/src/operations/operations.payments.ts:690-699 | An invoice is named on a booking that is not cancelled |
| Settlements.PausedRefused | backend/src/operations/operations.store.ts:84-97 | While writes are paused every command is refused and writes nothing |
| Acceptance.OpenIff | backend/src/operations/operations.bookings.ts:460-606 | A priced request is opened if and only if its time is free, unless it is a guest's, and its owner can spend its hours |
| Acceptance.ConfirmIff | backend/src/operations/operations.bookings.ts:674-716 | A booking is confirmed if and only if the caller is up to date, it is live, paid or postpaid, its hours are debited and its time is free |
| Acceptance.CancelIff | backend/src/operations/operations.bookings.ts:827-869 | Cancelling succeeds if and only if there are no hours to give back or their owner can receive them |
| Acceptance.PaymentRecordedIff | backend/src/operations/operations.payments.ts:456-526 | A payment that arrived is recorded if and only if no late debit is due or the owner of the hours exists; too few hours never keep money out |
| Acceptance.DebitIff | backend/src/operations/operations.hours.ts:249-293 | Hours are debited if and only if the owner exists and can spend them once the account is up to date |
| Acceptance.CreditIff | backend/src/operations/operations.hours.ts:249-293 | Hours are credited if and only if the owner exists and the balance stays a safe integer |
| Requests.RepeatsVanish | backend/src/operations/operations.store.ts:129-174 | However requests are repeated, the store goes through a run in which each key's command happens at most once, and each of them succeeded |
| Requests.RequestsKeepInvariants | backend/src/operations/operations.store.ts:129-174 | All invariants hold in every run of requests with repeats |
| Requests.HandleAnswers | backend/src/operations/operations.store.ts:111-174 | A request that is not refused beforehand is answered from its receipt, in conflict with it, or decided by its command and then recorded |
| Requests.RepeatAnsweredIff | backend/src/operations/operations.store.ts:111-155 | Once a request has succeeded its repeat changes nothing in any run, and is answered if and only if it is neither a block that cannot be priced any more, nor an adjustment whose owner is gone, nor a payment that the provider now reports with another amount; another payload under its key is never answered |
| Requests.BlockRepeatRefused | backend/src/operations/operations.bookings.ts:1237-1250 | A block that succeeded, repeated after its room was withdrawn, is refused though its receipt is there |
| Requests.AdjustRepeatRefused | backend/src/operations/operations.hours.ts:294-305 | An adjustment that succeeded, repeated when the owner of the hours is gone, is refused though its receipt is there; the services never delete a profile, so this state is outside what they reach |
| RoomDays.NoDoubleBooking | backend/src/operations/operations.bookings.ts:202-255 | In every history of interleaved snapshot transactions with first committer wins on bookings and room-days alone, two blocking bookings of a room never overlap: no write skew, also against a late payment |
| RoomDays.CommitDisjoint | backend/src/operations/operations.store.ts:98-110 | One commit against a store that has moved on keeps blocking bookings apart |
| Serial.InterleavingIsSerial | backend/src/operations/operations.store.ts:84-110 | With the fence, every interleaved history ends in the state of a serial run of the same commands, in which a request that reads ahead of its transaction has read an earlier state; so all invariants survive concurrency |
| Serial.CommitSerial | backend/src/operations/operations.store.ts:84-110 | A commit puts its command at its snapshot's place in the serial history and counts up the fence |
| Serial.PauseStopsInFlight | backend/src/operations/operations.store.ts:84-97 | Switching writes off or on makes every open transaction unable to commit |
| Outbox.KeyInjective | backend/src/operations/operations.payments.ts:45-86 | Jobs for different bookings, or different revisions of one, never share a key |
| Outbox.IssueMeets | backend/src/operations/operations.payments.ts:622-700 | After the invoice command the booking's own invoice is for what is outstanding, unless nothing is; issued invoices never change and other bookings keep theirs |
| Outbox.BackoffBounds | backend/src/operations/operations.payments.ts:862-881 | Waits grow with the attempts up to 2560 seconds, and the cap of an hour is never reached |
| Outbox.IssueKeepsOrAdds | backend/src/operations/operations.payments.ts:622-700 | The invoice is kept when it is for what is outstanding or nothing is, else one new invoice is issued |
| Outbox.Enqueued | backend/src/operations/operations.store.ts:205-226 | A new job waits at once; a known one stays as it is |
| Outbox.ClaimableIff | backend/src/operations/operations.payments.ts:804-818 | A job may be claimed when its time has come, or its holder's lease is over |
| Outbox.ClaimLasts | backend/src/operations/operations.payments.ts:818-831 | A claim keeps everybody else away for two minutes |
| Outbox.DeliveryAnswers | backend/src/operations/operations.payments.ts:566-716 | The invoice command answers from its receipt, or refuses in the source's order, or issues and records |
| Outbox.WorkedIsDone | backend/src/operations/operations.payments.ts:799-882 | A job that was delivered is done, one that was refused waits longer |
| Outbox.TakenTriedSettled | backend/src/operations/operations.payments.ts:799-882 | A worker that takes a job, has it accepted and settles finishes it |
| Outbox.LostIsClaimedAgain | backend/src/operations/operations.payments.ts:804-818 | A job whose worker crashed is claimable once its lease is over |
| Outbox.Queue.Add | backend/src/operations/operations.store.ts:205-226 | A job is put in once per key |
| Outbox.Queue.ClaimNext | backend/src/operations/operations.payments.ts:804-831 | The claimed job is claimable and has the earliest retry time; none is claimed only when none is claimable |
| Outbox.Queue.Run | backend/src/operations/operations.payments.ts:566-716 | The invoice command is answered from its receipt, refused for the booking, the profile, the issuer or the requisites in the source's order, or issued and recorded once |
| Outbox.Queue.Work | backend/src/operations/operations.payments.ts:799-882 | One pass claims, delivers, then completes the job or puts it back with a longer wait |
| Outbox.ExactlyOnce | backend/src/operations/operations.payments.ts:799-882 | Whatever is lost, repeated or raced between workers and the request itself, a key's command has run at most once, exactly once when its job is done, and the invoices are those of running each once |
| Outbox.RedeliveryAnswers | backend/src/operations/operations.payments.ts:45-86 | Inline finish and worker send the same command: whoever comes second gets the stored invoice, never a conflict |
| Outbox.LastRunRules | backend/src/operations/operations.payments.ts:622-700 | After the last run for a booking its invoice is for what was outstanding then |
| Outbox.DoneForever | backend/src/operations/operations.payments.ts:804-831 | A finished job is never claimed again or put back, in any run |
| Outbox.HolderAlone | backend/src/operations/operations.payments.ts:852-881 | Until a lease runs out, no step but its holder's settling changes the job |
| Outbox.NeverStuck | backend/src/operations/operations.payments.ts:804-881 | In every run, a job that is not done is claimable within 2560 seconds if nobody takes it first |
| Gateway.PaymentDesk.CreatePayment | backend/src/operations/operations.payments.ts:245-313 | The intent is recorded once, and a request is sent only within 23 hours of it; otherwise the payment is polled or flagged for reconciliation |
| Gateway.PaymentDesk.AttachProviderPayment | backend/src/operations/operations.payments.ts:322-375 | A provider payment is attached once, to its booking's intent, and refused for another amount or currency |
| Gateway.PaymentDesk.CheckPayment | backend/src/operations/operations.payments.ts:394-463 | A final result is applied once, after attaching an unknown payment of a known intent; a second payment of a booking, or another amount or currency, is a mismatch |
| Gateway.OnePaymentPerBooking | backend/src/operations/operations.payments.ts:245-375 | Over lost requests, lost replies, crashes and retries, a booking has at most one payment at the provider and at most one attached |
| Gateway.RecordedAsIntended | backend/src/operations/operations.payments.ts:327-353 | In every run a recorded payment is for the amount of its booking's intent, as the provider reports it |
| Gateway.ResultsOnce | backend/src/operations/operations.payments.ts:394-463 | Over repeated webhooks and polls, a payment has at most one applied result |
| Gateway.PaidMeansSucceeded | backend/src/operations/operations.payments.ts:443-463 | A payment is recorded as paid exactly when its success was applied, and then it succeeded at the provider |
| Gateway.PaidStaysPaid | backend/src/operations/operations.payments.ts:443-463 | A recorded paid payment never becomes unpaid, in any run |
| Gateway.DecidedBy | backend/src/operations/operations.payments.ts:245-313 | A request goes out as long as no payment is attached and the intent is less than 23 hours old; else the payment is polled or flagged |
| Gateway.AttachWrites | backend/src/operations/operations.payments.ts:322-375 | A payment is attached once, for the amount of the intent, and recorded as pending |
| Gateway.CheckWrites | backend/src/operations/operations.payments.ts:394-463 | A final result is written once, after attaching what is not recorded, and refused for another amount or another payment of the booking |
| Gateway.LookSettles | backend/src/operations/operations.payments.ts:394-463 | In every run one look at a payment that is final settles it |
| Availability.Availability | backend/src/operations/operations.bookings.ts:256-309 | The stepping loop ends with slots that partition the working day exactly, each showing the first busy range that hits it |
| Availability.FillSlots | backend/src/operations/operations.bookings.ts:283-301 | The loop ends, and its slots partition the day |
| Availability.FirstHitIs | backend/src/operations/operations.bookings.ts:292-300 | A slot shows the first overlapping range, and is free only when none overlaps |
| Availability.FreeIff | backend/src/operations/operations.bookings.ts:213-309 | A slot is free if and only if booking it would meet no conflict |
| Availability.FreeTimeBookable | backend/src/operations/operations.bookings.ts:213-309 | Any time of the working day covered by free slots has no conflict |
| Availability.BookableIffFree | backend/src/operations/operations.bookings.ts:213-309 | A stretch from one slot's start to another's end has no conflict if and only if all its slots are free |
| Availability.GridAgrees | backend/src/operations/operations.bookings.ts:213-309 | In every run, a stretch of slots is all free if and only if it can be booked |
| Support.Ticket.constructor | backend/src/operations/operations.support.ts:593-648 | A new ticket starts with counters that agree with its one message |
| Support.Ticket.AddMessage | backend/src/operations/operations.support.ts:677-724 | A message is appended to the log, and the ticket handed to the CRM when that is on |
| Support.Ticket.Reply | backend/src/operations/operations.support.ts:677-774 | A reply appends one message and moves the counters, read marks and status of its side; a closed ticket or an old revision refuses it |
| Support.Ticket.SetStatus | backend/src/operations/operations.support.ts:775-815 | The status changes under a current revision only, and not when the CRM manages it |
| Support.Ticket.MarkRead | backend/src/operations/operations.support.ts:874-905 | Reading raises one mark to what was seen, at most to the last message, and changes nothing else |
| Support.CountersAgree | backend/src/operations/operations.support.ts:502-905 | Over every run the counters equal those of the message log, log and read marks only grow, and a managed ticket keeps its status |
| Support.UnreadIff | backend/src/operations/operations.support.ts:297-302 | The unread flag is up if and only if the log holds a message of the other side above the read mark |
| Support.NeedsActionIff | backend/src/operations/operations.rules.ts:221-227 | A ticket needs action if and only if it is open and new, or open with the customer's word last |
| Support.ClosedKeepsLog | backend/src/operations/operations.support.ts:677-774 | A closed ticket takes no message until its status is changed |
| Support.ReplyAnswers | backend/src/operations/operations.support.ts:677-774 | Each refusal of a reply, and what an accepted one writes |
| Support.StatusAnswers | backend/src/operations/operations.support.ts:775-815 | A status is set under the current revision, and not when the CRM manages it |
| Support.ReadAnswers | backend/src/operations/operations.support.ts:874-905 | Reading raises the reader's mark to what was seen, and never lowers it |
| Support.OpenedUnread | backend/src/operations/operations.support.ts:593-648 | A new ticket has the customer's message, which only the staff has not read |
| OfficeCsv.ParseCsvLine | backend/src/common/office-csv.ts:27-52 | The character loop finds the cells of the line, quotes and doubled quotes included |
| OfficeCsv.LineRoundTrip | backend/src/common/office-csv.ts:27-59 | Whatever the cells hold, a printed line is read back as the same cells, trimmed (quoting as in rules 5 to 7 of section 2 of RFC 4180) |
| OfficeCsv.ParseOfficeCsv | backend/src/common/office-csv.ts:69-132 | The loop over the lines collects the rows and errors of the whole file |
| OfficeCsv.CellsAnswer | backend/src/common/office-csv.ts:91-132 | What becomes of the cells of a line: nothing, an error, or a row |
| OfficeCsv.YesAndNo | backend/src/common/office-csv.ts:61-67 | The words for yes and no, in any case; anything else is the default |
| OfficeCsv.CommaIsPoint | backend/src/common/office-csv.ts:110 | The first comma of an area is its point |
| Numbers.NumberRoundTrip | backend/src/common/office-csv.ts:105-113 | Every number, of either sign, plain or with an exponent, infinite or none, is read back as itself when it has been printed |
| Numbers.TextChars | backend/src/common/office-csv.ts:149-151 | A printed number is not empty and holds nothing to be quoted or trimmed, which is why it is printed without quotes |
| OfficeCsv.ParsedRowsClean | backend/src/common/office-csv.ts:69-132 | Every row read from any file has trimmed one-line cells, a centre, a number, a lower-case email, and no area or one that is finite and not below zero |
| OfficeCsv.PrintedReadBack | backend/src/common/office-csv.ts:69-161 | Printed rows with clean cells come back in order, except those whose area is below zero or not finite, each of which is an error on its line |
| OfficeCsv.NegativeAreaRefused | backend/src/common/office-csv.ts:111-118 | An office of minus five square metres is printed and refused |
| OfficeCsv.RoundTripIff | backend/src/common/office-csv.ts:69-161 | Reading back what was printed gives the same rows and no errors if and only if every row is clean |

## Left out

- Permissions, property scopes, snapshots of parties, guest links, attendees, comments' text, events and timestamps other than those that decide something.
- Controllers, guards, mail, PDF rendering, file bytes, Bitrix24, the site-source sync and the migration; runs start from an empty store.
- OperationsWorker.WorkerService.Tick: a pass without its outbox job, which is `Outbox.Queue.Work`, and without commands of other clients between its own. The keys of expiries and policies are left out: each names something that its command ends or a revision that it moves. A payment that is polled is the one recorded for the booking.
- Jobs other than invoices in the outbox; the payment job's own safety is `Gateway`. Invoice numbers beyond their order, recipients and due dates; which issuer and whose data are facts a delivery is given.
- Machine.Body: the command that writes an invoice id on a booking takes the id as given; which invoice that is, is decided in `Outbox`.
- Commands: the races between calls are modelled on receipts alone, and `Requests` puts receipts in front of the engine one request at a time. The scope of the actor in a key is part of the key, and the shape check on keys is not modelled.
- Catalog: a request's prices are those of the listing passed in; building the listing from office services is input, and so is the monthly quota they give. Service prices are taken as not negative, and rounding is exact where the source uses floating point.
- Bookings.Change: the quote is computed from the booking as it is in the transaction, which the revision check makes the same; a caller that sends a revision it was never shown is not modelled.
- Calendar: dates are triples of numbers; texts of dates after the year 9999 are not modelled.
- BookableDates.GetBookableVisitDates: today is a day as the clock gives it, with a year from 1000 on; the text of an earlier year has fewer digits, or is read as a year of the twentieth century.
- Hours.LazyIsDaily: speaks of an account without movements and with an unchanged policy, as the renewal branch does; revision counts differ and are not compared.
- OperationsBookings.BookingsService.LockDays: the days are visited in any order; the source sorts them, which only matters to lock waits.
- OfficeCsv: areas are exact decimals in every notation that is read, without the rounding to binary fractions of 53 digits, so without a negative zero. Lower case covers Latin letters and the basic Cyrillic block. Characters are code points, not UTF-16 units.
- Fingerprint: undefined values and the order of keys by UTF-16 units; numbers are integers.
- Closed weekdays as text, lists, filters and presentation of rows: they would only add easy members.
