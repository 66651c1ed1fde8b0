# A proved model of the league's money accounting

The league is a house of trading agents with real accounts. Around them stand a few state machines that
decide what may be spent, what an account is worth, what the broker's cash means, and which agents may
risk real money. Each is a fold over an append-only ledger, or a small store changed by one transaction at
a time. This project models the six hardest of them in Dafny and proves what they promise over every input
and every run.

| part | files | what it is |
|---|---|---|
| the campaign spending guard | `CampaignStore`, `CampaignBudget`, `CampaignRuns`, `CampaignAdmissions`, `CampaignHolds`, `CampaignMeters`, `BalanceMeter`, `Gateway`, `Absorption`, `AbsorptionRuns`, `AbsorptionShortfalls`, `Calendar`, `Sums` | commitments, meters and a burst line; beside them the gateway's frontier month |
| receipt repair | `Accounts`, `AccountLaws`, `Repairs` | an account as a replay of its rows, and correction rows that must rewrite history |
| the broker's reconciliation | `Reconcile`, `Classifier`, `ReconcileLaws`, `ReconcileScope`, `ReconcilePasses`, `ActivityCache`, `Totals` | where every account activity goes, and the windowed cache it is read from |
| the allocator | `ProbeHolds`, `ProbeRuns`, `ProbeLaws`, `Swings`, `SwingRuns`, `SwingLaws`, `Envelope`, `EnvelopeLaws`, `Bands` | probe holds, the family swing's audit, the venue's envelope, sizing, bands |
| completed exposures | `Episodes`, `EpisodeLaws`, `EpisodeRows`, `EpisodeRisks` | the fold that turns rows into non-overlapping episodes |
| the order-outcome index | `Outcomes`, `OutcomeIndex`, `OutcomeLaws` | an incremental ordered index beside the scan it must equal |

How it is laid out. What a step does is a function on values (`AfterReserve`, `AfterFill`, `AfterTrade`,
`FoldRow`, `AfterPass`). The code's own loops and in-place updates are methods and classes
(`CampaignBudget`, `Account`, `Desk`, `OutcomeIndex`, `ProbeGate`, `Floor`, `ActivityLedger`, `Classify`,
`Completed`), each held to that function, so what the lemmas prove of runs holds of them. Money in the
campaign store is whole micro-dollars and time whole microseconds, as there; Decimal amounts elsewhere are
exact reals.

What is assumed. A transaction commits whole or not at all, and transactions do not interleave. Clocks,
networks, the broker, the auditor and the live grant are inputs. The gateway and the House share one clock
in `Absorption`, and a call is made under a House reservation at least as large, within the 900 seconds of
a call's life (league/campaigns.py:87); a reading is recorded at the moment it is taken. OpenAI holds are
absorbed only when older than a call's life and a fresh reading together, 1080 seconds: the House passes
six hours (league/house.py:10192-10213), which leaves room for a reading's own lag. A position the book
settled itself has one expiry (`OneExpiry`): the book settles only index positions
(league/live/step.py:702-703, 3254-3255), and an index position's legs share one
(league/gym/legs.py:313-314, 401-402).

## Where the code falls short of its own words

Each of these is a lemma about the code as it is, on inputs it reaches; the property beside it says exactly
when the promise holds.

- A provider's own month bounds `remaining` always, but `reserve` asks it only while a burst is funded
  (league/campaigns.py:602-607): `PhaseIgnoresTheMonth`, on 2 September 2026. At any admission the month
  fits exactly when the hold is within what it had left: `MonthFitsWhatIsLeft`; with a burst it always is,
  and stays so until the next reading (`ProviderMonthNeverOvercommitted`).
- A burst's line against the real charges of its calls: `AbsorptionIsSound` bounds them in every run, for
  every burst, by the line and three named amounts. Two of them are shortfalls, each shown on a run from the
  start under a burst the owner may fund ($1,000 a kind, eight hours, no live grant). A burst funded once the
  meter runs starts from what it had counted; where a call settled below the hold that was read, the burst's
  own calls hide under the old high (`LateBurstHidesItsCalls`: a line down to nothing beside any charge up to
  $1,000; exactly how much the baseline hides: `BurstBaselineHidesMeter`). And where a later reading cannot
  close the month on record, coverage begins again and the line keeps only what the House settled itself,
  nothing for an absorbed hold (`RestartForgetsTheLostCall`, for any charge below $1,000; exactly how much:
  `RestartForgetsAbsorbed`; exactly when: `ReadingMeasures`).
- `until_seq` hides later rows but not later corrections and repairs, which move the evidence forward
  (`LaterCorrectionHides`; exactly when the answers agree: `LooksAheadOnlyToCorrections`).
- The audit of a swing's entry. A family whose state was lost comes back from its last `family.record` row,
  and where that says "swing" it swings on with no approval on record (`RestoredStayHasNoApproval`; exactly
  when: `StaysOnNoApproval`). An approval that is no longer "prepared" licenses an earlier look when the
  record has shrunk (`ShrunkRecordEntersEarly`; exactly when: `EntryLookIsReached`). A look that fails while
  its audit still runs lapses nothing (`CarriedOverAFailedLook`): of an approval, every pass that read its
  look as failed came before its verdict (`FailuresPrecedeTheVerdict`), and from the verdict on the approval
  licenses a passing look exactly when nothing since has ended it (`CarriedOverExactly`).
- `_bunt` asks for the newcomer's stake alone; cash its account already had idle comes on top
  (`IdleCashOverspends`; exactly when it is safe: `EntryStaysInside`).
- The documentation of `losing` and `gaining` speaks of a record at or below zero; the code asks for a
  billionth on either side (league/families.py:1177-1187), and the model follows the code.

## Model

| member | source | states |
|---|---|---|
| CampaignBudgets.CampaignBudget.SumsAfter | league/campaigns.py:383-402 | the scan's four summands are the totals of what each commitment owes by whether its charge is known, the meter covers it and its coverage had begun |
| CampaignBudgets.CampaignBudget.Line | league/campaigns.py:427-437 | a burst line's use is the larger of settled and measured, plus before, unmetered and pending |
| CampaignBudgets.CampaignBudget.LeftAtProvider | league/campaigns.py:534-558 | while a reading is fresh, what the month has left after everything committed on its line since |
| CampaignBudgets.CampaignBudget.RemainingFor | league/campaigns.py:521-532 | a kind's room: its line, nothing while the campaign is closed, never more than its provider's month |
| CampaignBudgets.CampaignBudget.Cap | league/campaigns.py:269-312 | the burst's cap with every top-up of the kind and the gateway's raise while it is fresh |
| CampaignBudgets.CampaignBudget.Reserve | league/campaigns.py:582-618 | answers as the checks do in their order, admits by appending one row, and refuses, replays or rejects with the store unchanged |
| CampaignBudgets.CampaignBudget.Settle | league/campaigns.py:620-634 | settles exactly a known identity whose charge is unknown or the same, and changes nothing else |
| CampaignBudgets.CampaignBudget.ObserveSpend | league/campaigns.py:636-646 | raises the meter, or latches it failed where the figure fell |
| CampaignBudgets.CampaignBudget.ObserveBalance | league/campaigns.py:648-698 | adds each fall to the meter and never a rise; the first reading starts the feed and clears a latch |
| CampaignBudgets.CampaignBudget.ObserveMonth | league/campaigns.py:700-842 | the whole transition of a month reading: first row, the same month, an older one refused, a rollover that closes or restarts coverage |
| CampaignBudgets.CampaignBudget.AbsorbStale | league/campaigns.py:863-982 | zeroes exactly the unanswered holds past the cutoff that the meter records, where it is healthy and vouches for them, and returns what they held |
| CampaignBudgets.CampaignBudget.ActivateBurst | league/campaigns.py:348-381 | funds one burst only, for Sail and OpenAI at up to $1,000 each and one to eight hours, inside the owner's envelope, from the last row and the meters as they stand, where the phase runs and both kinds are ready |
| CampaignBudgets.CampaignBudget.TopUpBurst | league/campaigns.py:324-346 | each named top-up is added once, to a funded burst, for the two paid kinds and within the owner's limit |
| CampaignBudgets.CampaignBudget.LinkResponse | league/campaigns.py:990-995 | a response's link is written once and refuses another |
| CampaignAdmissions.PhaseAdmitsExactly | league/campaigns.py:582-618 | before a burst a new identity is admitted exactly where the phase runs, the meter is trusted, and its kind, its campaign, the day and the whole phase hold it beside all that rows claim and meters show beyond the charges they counted |
| CampaignAdmissions.BurstAdmitsExactly | league/campaigns.py:521-618 | while a burst is funded, exactly where the burst's funds hold it beside what was claimed and measured since, a fresh month's line does, and phase and burst together do |
| CampaignAdmissions.RoomIsLargest | league/campaigns.py:521-558 | what remains of a kind is the largest hold that its line and a fresh month hold, and nothing once the burst is over |
| CampaignAdmissions.MeasuredFromItsStart | league/campaigns.py:404-425 | through any run a kind is measured from its meter's first figure, and under a burst from where the meter stood at the funding |
| CampaignAdmissions.FundsExactly | league/campaigns.py:348-381 | when a burst is funded, both ways, and that it starts with nothing committed and every meter where it stands |
| CampaignAdmissions.ToppedUpExactly | league/campaigns.py:324-346 | a top-up is added exactly to a funded burst, for a paid kind, within the bounds and under a new name |
| CampaignAdmissions.RaiseIsLastTold | league/campaigns.py:297-312 | the gateway's raise is what it last told up to $1,000, told now unless the same was within five minutes |
| CampaignHolds.ReplayedIsOnRecord | league/campaigns.py:589-595 | a replay is answered exactly for a row on record with that identity, that campaign and that hold |
| CampaignHolds.IdentityIsBinding | league/campaigns.py:589-595 | in every continuation an identity on record asked with another campaign or hold is refused, asked with its own replayed, and neither changes anything |
| CampaignHolds.ChargeStands | league/campaigns.py:620-634 | what was not known or is the same settles, on its own row alone, and in every continuation settles again and as nothing else; what no row names never settles |
| CampaignHolds.AbsorbedExactly | league/campaigns.py:881-982 | a row changes exactly where its charge is unknown, it is old enough, no response names it, the month covers it and the meter vouches, and then costs nothing |
| CampaignHolds.ReleasedIsFreed | league/campaigns.py:899-912 | what an absorption says it released is what the kind owes less |
| CampaignHolds.LinkedHoldWaits | league/campaigns.py:899-901 | through any run a hold some response names stays the row it was, absorbed by neither kind of meter, and its own settlement is done and leaves exactly that charge |
| CampaignHolds.FirstLinkStands | league/campaigns.py:990-995 | in every continuation a response is linked to what it was linked to first, and linking it moves nothing else |
| CampaignMeters.SpendSetsOrFails | league/campaigns.py:636-646 | a spend reading sets its kind's meter, or, where the figure fell, fails it unchecked, and touches no other kind |
| CampaignMeters.BalanceIsRead | league/campaigns.py:648-698 | a balance is recorded and checked now; the first starts the meter and clears a failure, a later one adds exactly its fall, and no other kind moves |
| CampaignMeters.MonthIsRecorded | league/campaigns.py:711-842 | a reading of an earlier month or one that contradicts itself changes nothing; any other is recorded as it is, with the commitments made by then |
| CampaignMeters.MonthRaisesMeter | league/campaigns.py:762-842 | a month's reading raises its meter to what the months come to and never lowers it, and the first starts it from nothing |
| CampaignMeters.AnchorStaysThroughTheMonth | league/campaigns.py:762-842 | the anchor stands at the month's first reading that says what was settled, with the commitments made by then, and stays through the month |
| CampaignMeters.MonthlyMeterIsTheMonths | league/campaigns.py:711-788 | over any run the monthly meter is the sum, month by month, of the largest spend any reading told of that month, so is what the gateway settled, and coverage is from the last month whose first reading did not close the one before, above all until then |
| CampaignRuns.StepKeepsRows | league/campaigns.py:582-634 | every step keeps the commitments row by row, only an admission adds one, and identities stay distinct |
| CampaignRuns.CostsAreWriteOnce | league/campaigns.py:620-634 | over every run no known charge ever changes |
| CampaignRuns.BreachLatches | league/campaigns.py:502-510 | once a charge exceeded its reservation no continuation admits a new identity of any kind, while a replay still answers and changes nothing |
| CampaignRuns.FailedMeterStops | league/campaigns.py:636-646 | a meter that fell admits no further hold of its metered kind in any continuation, short of the kind's first balance |
| CampaignRuns.BurstCapOnlyRises | league/campaigns.py:269-346 | over every run a funded burst and its cap never fall, top-ups count once by name, and only the gateway's raise lapses |
| CampaignRuns.PhaseAdmissionFits | league/campaigns.py:600-613 | with no burst an admission keeps the kind, its campaign and the kind's day within their caps, the new hold included |
| CampaignRuns.AggregateFits | league/campaigns.py:600-618 | burst or none, all that the policy's kinds owe with the new hold fits the phase's total cap and the burst's caps |
| CampaignRuns.RunIsInPhase | league/campaigns.py:189-194 | in a run without a live grant every commitment was made while the phase, and a funded burst, was running |
| CampaignRuns.PartsPartition | league/campaigns.py:383-402 | the four summands split what a kind owes, none negative, wherever coverage begins |
| CampaignRuns.SettleNeverRaisesUsed | league/campaigns.py:427-437 | a settlement at or below its reservation never raises a line, whatever the meter reads |
| CampaignRuns.AdmissionFitsTheCap | league/campaigns.py:582-618 | at a burst's admission of a hold, all the kind's burst commitments owe with it fits the cap in force |
| CampaignRuns.ObligationsStayInsideTheLine | league/campaigns.py:582-634 | in every run what burst commitments owe stays within the cap at the kind's last admission, up to what charges overran their reservations, and exactly within it when none did |
| CampaignRuns.ProviderMonthNeverOvercommitted | league/campaigns.py:534-558 | from a burst's admission until the next reading, the month's spend and all committed on its line since stay within its cap, up to overruns |
| CampaignRuns.MonthFitsWhatIsLeft | league/campaigns.py:534-618 | at any admission of a metered hold the month's spend and all committed since stay within its cap exactly when the hold is within what the month had left, and at a burst's they always do |
| CampaignRuns.PhaseIgnoresTheMonth | league/campaigns.py:602-607 | with no burst, on a real day and a fresh reading of a spent month, a hold is admitted on a line whose month has nothing left |
| BalanceMeter.MeterRisesByFalls | league/campaigns.py:648-698 | whatever else the guard does, the meter has risen by exactly the falls between consecutive balances |
| BalanceMeter.BalanceMeterIsShortByTopUps | league/campaigns.py:648-654 | against a true account the meter is short by exactly what each interval's top-up hid, and exact just when no interval had both |
| Calendar.MonthsInOrder | league/campaigns.py:32-34 | UTC months begin in their own order, leap years and centuries included |
| Calendar.JanuaryBegins | league/campaigns.py:32-34 | each January begins where the Gregorian count of leap years puts it, in microseconds from 1970 |
| Calendar.MonthBegins | league/campaigns.py:32-34 | and every month after its January by a common year's days, one more after a leap February |
| Gateway.ReserveKeepsRows | gateway/lib/gate.mjs:947-965 | a call taken leaves the two stored rows in agreement with the whole history of calls, month rollovers included |
| Gateway.SettleKeepsRows | gateway/lib/gate.mjs:967-984 | a settlement does too, and reaches only a call of the running month that is not settled |
| Gateway.ReportsAreTrue | gateway/lib/gate.mjs:815-838 | the reported spend is every charge of the month, and `previous` the true final of the latest earlier month with calls |
| Gateway.SettleKeepsInFlight | gateway/lib/gate.mjs:967-984 | a settlement leaves in flight exactly what the unsettled calls of both stored months hold |
| Gateway.SettledIsTrue | gateway/lib/gate.mjs:815-838 | the settled figure told of the running month and of the last is exactly what their settled calls cost |
| Absorption.EarlierMonthsAreCarried | league/campaigns.py:762-788 | after any reading the meter carries every charge of the months it covers before the reading's own |
| Absorption.ZeroedAreOver | league/campaigns.py:914-982 | what an absorption zeroes is past its call's life and has no call the last reading did not see |
| Absorption.EventKeepsInv | league/campaigns.py:914-934 | every step of the House, the gateway and the clock keeps the simulation of the meter and the gateway's history |
| AbsorptionRuns.MeterCoversGateway | league/campaigns.py:404-425 | in every run and for every burst the meter is carried plus high, and measures at least every charge read for calls since it covers less what it had counted when the burst was funded |
| AbsorptionRuns.MeterNeverFalls | league/campaigns.py:711-719 | the meter never falls, though the gateway's month rises, falls and starts again |
| AbsorptionRuns.BurstsAreFunded | league/campaigns.py:374-376 | in every run the burst on record was funded from a meter that has not fallen since |
| AbsorptionRuns.AbsorptionIsSound | league/campaigns.py:914-934 | in every run, for every burst whenever funded, its calls' real charges by now, absorbed holds included, with what is settled or counted beside them are at most its line, what was charged since the last reading to holds the House itself settled, what the meter had counted at funding, and what earlier commitments were charged beyond what they owe |
| AbsorptionRuns.ReadingMeasures | league/campaigns.py:762-788 | for any funded burst a reading never lowers what is measured unless coverage begins again, and then exactly the new month is measured |
| AbsorptionRuns.RestartForgetsAbsorbed | league/campaigns.py:776-782 | where coverage begins again over a settled burst its line falls short of its calls' charges by exactly what they were charged beyond what they owe, less the new month's spend; an absorbed hold owes nothing |
| AbsorptionRuns.BurstBaselineHidesMeter | league/campaigns.py:404-425 | a burst funded once the meter runs measures less by exactly what the meter had counted above its base, the amount `AbsorptionIsSound` leaves out |
| AbsorptionShortfalls.LateBurstHidesItsCalls | league/campaigns.py:348-425 | a run from the start, under a fundable burst and no grant, for any month and any charge up to $1,000, ends with the burst's line short of that charge by all but a micro-dollar of the worst case read before, and the bound of `AbsorptionIsSound` exact |
| AbsorptionShortfalls.RestartForgetsTheLostCall | league/campaigns.py:776-788 | a run from the start, under a fundable burst and no grant, absorbs a charged hold of anything below $1,000 into a true line, and a reading that cannot close its month leaves one micro-dollar of it |
| Accounts.Account.ApplyFill | league/book.py:911-935 | a buy adds units and cost, a sale takes its share of the cost out and realizes the rest, an emptied holding goes |
| Accounts.Account.Settle | league/accounting.py:78-84 | a settlement pays, realizes the payout over the cost and removes the holding |
| Accounts.Account.ApplyCorrection | league/accounting.py:60-65 | applies just when every named holding is there, changing money and costs and no quantity |
| AccountLaws.PartSaleKeepsUnitCost | league/book.py:911-935 | after any rows a sale of part of a holding leaves its cost a unit as it was and realizes its cash less the cost of the units sold |
| AccountLaws.WholeSaleRealizesAll | league/book.py:911-935 | a sale of all of it realizes its cash less the whole cost, and the holding is gone |
| AccountLaws.SalesAddUp | league/book.py:911-935 | selling in any two parts leaves the account that selling at once does |
| AccountLaws.PurchasesAddUp | league/book.py:911-935 | so does buying in two parts |
| AccountLaws.PurchaseAddsItsCost | league/book.py:911-935 | a purchase adds what it paid to the holding's cost |
| AccountLaws.SettlementRealizes | league/accounting.py:78-84 | a settlement pays and realizes the payout over what the holding cost, and moves nothing else |
| Repairs.Desk.Correct | league/accounting.py:92-117 | the two replays always reproduce the account and its positions, and their difference is the correction |
| Repairs.Desk.Repair | league/accounting.py:120-185 | a repair appends that one row and the account stays the replay of its log |
| Repairs.ReplayKeepsUnits | league/accounting.py:68-84 | quantities depend on quantities alone: logs that move the same units hold the same, whatever their prices |
| Repairs.ApplyKeepsParallel | league/accounting.py:68-84 | any row carries a difference in money between two accounts of the same units along unchanged |
| Repairs.RepairsRewriteHistory | league/accounting.py:60-117 | over any mix of rows and repairs, each fill repaired once, the log with its corrections replays to exactly the account of the log whose repaired fills were written truly |
| Repairs.PhantomRepairConserves | league/accounting.py:199-263 | a recovered sale moves cash and units between agent and baseline, changes neither in total, and leaves the agent flat with its whole cost realized |
| Classifier.Gather | league/account_activity.py:328-412 | one loop sums every activity into its lane and fails exactly on one that cannot be read |
| Classifier.CheckOrders | league/account_activity.py:414-437 | finished orders' differences, and corrections to their one position or to Other's fees |
| Classifier.CheckSettlements | league/account_activity.py:449-481 | each wholly posted expiry's cash against the book's value, then loose events once |
| Classifier.CheckAssigned | league/account_activity.py:483-510 | assignments and shares against the touched positions' value, or blocked exactly when untaken, still held or liquidated |
| Classifier.CheckExternal | league/account_activity.py:512-522 | liquidation charges and the estimate they replace, once every one has posted |
| Classifier.Classify | league/account_activity.py:251-525 | every figure of the reading, and none where an activity cannot be read |
| ReconcileLaws.ShownIsInScope | league/account_activity.py:251-525 | for every account, book and moment, the table and the Other line are the in-scope broker cash to the last of nine named terms |
| ReconcileLaws.OverlapIs | league/account_activity.py:449-470 | posted cash counted again is each amount once for every further expiry that takes its contract |
| ReconcileLaws.OneExpiryIsDisjoint | league/live/step.py:3254-3255 | positions the book settled itself, each of one expiry, share no contract across expiries, so nothing is counted twice |
| ReconcileLaws.StraysAre | league/account_activity.py:160-194 | the fills that stray are those of the table's positions on other orders less those of its orders on other positions |
| ReconcileLaws.ReconciliationConservesCash | league/account_activity.py:251-525 | once everything has posted and settled the reading is the in-scope broker cash within half a cent an order |
| ReconcileScope.CashIs | league/account_activity.py:224-229 | a sale brings what it sold for and a purchase takes it, a contract's price for a hundred; any other activity's cash is its amount |
| ReconcileScope.FillsAgree | league/account_activity.py:421-424 | where the book's own fill says what the broker's does, their cash is the same |
| ReconcileScope.LinesByKind | league/account_activity.py:328-412 | every line of a reading told by the activities' own kind, order, symbol and time, interest and coin fees exactly their amounts |
| ReconcileScope.PassesByKind | league/account_activity.py:414-522 | what the passes over orders, liquidations and assignments weigh, told the same way |
| ReconcileScope.NotOursChangesNothing | league/account_activity.py:328-412 | wherever among the activities the owner's deposit, a coin's or another book's fill, a row on another reset's order or too early stands, no figure of any reading is changed by it |
| ReconcilePasses.OrderIsTold | league/account_activity.py:417-427 | which finished orders differ, by the order's own fills and age |
| ReconcilePasses.FeesAreTold | league/account_activity.py:428-431 | whose fees are told: a finished order's, once every filled leg's fee has posted |
| ReconcilePasses.HomeIsTold | league/account_activity.py:431-437 | a correction goes to the one position its order's fills name, and to Other where they name several or none |
| ReconcilePasses.SettlementIsTold | league/account_activity.py:449-470 | which expiries there are, whose contracts each one waits for, and what of the book's is weighed on it |
| ReconcilePasses.ExpiryIsTold | league/account_activity.py:449-470 | an expiry's posted cash replaces the book's value exactly once every contract of it has an event |
| ReconcilePasses.LooseIs | league/account_activity.py:472-478 | what posted for a held contract of no expiry the book settles is told once, as it is |
| ReconcilePasses.AssignmentIsTold | league/account_activity.py:483-510 | what assignments and shares are weighed against, and when the broker's cash replaces it |
| ReconcilePasses.WaitingIsTold | league/account_activity.py:483-510 | Profit waits exactly for a settled liquidation the book has not taken, or for an assignment or its shares while one is untaken, shares may be held, or a touched position was charged beyond its fills |
| ReconcilePasses.LiquidationsAreTold | league/account_activity.py:512-522 | which charges are liquidations' and the estimate they replace |
| ActivityCache.ActivityLedger.Refresh | league/account_activity.py:635-666 | a refresh keeps, adds to or replaces the cached activities by how it ends, and a torn cache is read whole next |
| ActivityCache.ActivitiesAfter | league/account_activity.py:537-557 | every page of a history under twenty thousand rows, in order and each once, and no answer for a longer one |
| ActivityCache.RefreshIs | league/account_activity.py:635-666 | six hours after the last whole read began, or where none is known, a refresh is all the account shows; before that what was there and the last three days |
| ActivityCache.WindowReadMisses | league/account_activity.py:640-651 | a window read misses exactly what came to be shown since the last fetch for a day outside it |
| ActivityCache.CacheIsWholeRead | league/account_activity.py:76-84 | where activities show within the margin, every successful read leaves exactly what the account then shows, through any mix of windows, whole reads and failures |
| ActivityCache.LateActivityIsMissed | league/account_activity.py:76-84 | two seconds past the margin an activity can be missed |
| Episodes.Completed | league/episodes.py:11-108 | the loop, its break and its start are the fold of the rows it may see |
| Episodes.Take | league/episodes.py:48-107 | one fill or settlement changes positions, balance, exposure and episodes as its branches and its handler say |
| EpisodeLaws.ExposuresNeverOverlap | league/episodes.py:45-108 | episodes are disjoint and ordered, start after `since_seq` and the latest correction, close later than they opened and completed a trade |
| EpisodeLaws.AnswersAreOneHistory | league/episodes.py:14-22 | every answer is one history's episodes that started after `since_seq` and ended by `until_seq` |
| EpisodeLaws.LooksAheadOnlyToCorrections | league/accounting.py:45-57 | a past answer is what the ledger then would answer less what later corrections exclude, and the same exactly when they exclude nothing |
| EpisodeLaws.LaterCorrectionHides | league/accounting.py:45-57 | a ledger of four rows on which the answer as of the third loses its episode to the fourth, a correction |
| EpisodeLaws.KnownIsWellFormed | league/episodes.py:89-97 | the balance is known exactly while every row was well formed |
| EpisodeLaws.BadRowPoisons | league/episodes.py:89-97 | from the first malformed row no open or later exposure is ever an episode |
| EpisodeLaws.HeldIsNet | league/episodes.py:63-86 | while rows are well formed the positions are the net units of the rows and never negative |
| EpisodeLaws.EpisodesAreExposures | league/episodes.py:98-107 | the episodes are the closed exposures that pass, in order |
| EpisodeLaws.CashIsConserved | league/episodes.py:60-88 | the running balance is net stakes, corrections, the cash of every exposure closed or open, and cash outside any |
| EpisodeLaws.ReturnsAreBalanceChanges | league/episodes.py:48-107 | an episode's return is the gain of the recorded balance less net stakes over its own rows, on the largest, over those rows, of its opening balance plus net stakes so far |
| EpisodeRisks.EpisodesAreTold | league/episodes.py:48-107 | an episode spans exactly the time something was held, is dated by its first and last rows, counts the rows that emptied a holding, and its risk, on the capital its return is on, is the most drawn over its own rows: net stakes less the recorded balance's gain so far |
| EpisodeRows.KnownIsLawful | league/episodes.py:55-97 | the account is known exactly while every row's own fields agreed with the net units of the rows before it |
| EpisodeRows.BadRowEnds | league/episodes.py:89-97 | from the first row that does not agree, no exposure is ever an episode |
| EpisodeRows.BadRowLeaves | league/episodes.py:89-97 | what a row that is not taken leaves held, key by key |
| EpisodeRows.OthersDoNotCount | league/episodes.py:11-26 | no row of another book, another agent or a repair that does not name it changes any answer, wherever it stands |
| EpisodeRows.CutoffIsLatest | league/accounting.py:45-57 | scoring starts at the latest correction of the agent on the book or repair that named it |
| Outcomes.ScanOutcomes | league/auditor.py:112-128 | the whole-ledger read |
| Outcomes.ScanMeans | league/auditor.py:89-109 | one outcome for every order and refusal that concerns the agent, from its latest row with its latest submission error, in the order they last moved |
| OutcomeLaws.ScanShows | league/auditor.py:89-109 | each outcome is its subject's latest row, with the reason of its latest failed submission, in the order of those rows, and every row told is some outcome's subject |
| OutcomeLaws.AnswerIsTheLast | league/auditor.py:112-128 | an answer is the last `limit` outcomes in their order |
| OutcomeIndexes.OutcomeIndex.FoldRow | league/auditor.py:153-160 | a row reaches every agent with a share once, and no other |
| OutcomeIndexes.OutcomeIndex.Query | league/auditor.py:145-179 | whatever was appended between whichever queries, the answer is the whole scan's last outcomes |
| ProbeHolds.ProbeGate.Refold | league/allocator.py:2202-2234 | folds exactly the rows past the cursor, the whole ledger again where the holds were kept under another rule, or leaves the holds and closes the gate |
| ProbeHolds.ProbeGate.Prune | league/allocator.py:2236-2254 | keeps exactly the demotions whose record since has not turned, under the summed-growth or the bound rule |
| ProbeHolds.ProbeGate.Ask | league/allocator.py:2256-2304 | unreadable, then losing, then held by the earliest demotion the rule in force finds not turned, else open |
| ProbeLaws.HoldsExactly | league/allocator.py:461-503 | a row holds a family exactly where it demotes a funded probe of it from real money to practice, by the agent's last recorded state and family |
| ProbeLaws.TurnedOnItsSum | league/allocator.py:2148-2193 | under the summed rule a record has turned exactly where the blocks begun after the demotion are enough and grew together by a billionth |
| ProbeLaws.TurnedOnItsBound | league/allocator.py:2148-2193 | under the bound rule, exactly where their periods are two or more and enough and the lower bound of one observation a period is above nothing |
| ProbeLaws.ClosedExactly | league/allocator.py:2256-2304 | why the gate is closed, by the record's own blocks and the earliest hold not turned |
| ProbeRuns.FoldInParts | league/allocator.py:461-503 | folding two stretches is folding one onto the other |
| ProbeRuns.FoldHoldsEveryDemotion | league/allocator.py:461-503 | a family's holds are exactly the funded probe demotions the fold reads under it, each once and in order |
| ProbeRuns.OpenGateFoundAll | league/allocator.py:2256-2304 | an open gate has found every pending demotion of the family turned |
| ProbeRuns.DemotedProbeHoldsItsFamily | league/allocator.py:2795-2885 | in every run, whatever rule each pass and whatever families each fold reads, a probe is seated only once each earlier demotion the last fold put under its family, as some fold read it, was found turned for itself by some pass; lost state, failed folds and failed prunes included |
| ProbeRuns.NamedDemotionIsReleased | league/allocator.py:461-503 | a demotion that every fold of the run reads to hold the family, rewrites or not, was found turned before any later seat of that family |
| ProbeRuns.RebuiltHoldsNoLess | league/allocator.py:2147-2170 | a House that reads the whole ledger again still holds every demotion the uninterrupted one holds, exactly where the pass reads the row to hold that family |
| Swings.Desk.Decorate | league/allocator.py:1120-1196 | a pass moves one family's state, lapses or confirms its approval and asks for its audit, and touches no other family |
| Swings.Desk.RequestAudit | league/allocator.py:1458-1502 | when an audit is asked for, found on the ledger, awaited or left |
| SwingLaws.PassMovesAudit | league/allocator.py:1393-1502 | a pass leaves the audit that stands but for what it names: an approval confirmed or lapsed, a verdict found, an audit asked for at the look that is due |
| SwingLaws.CheckpointIsTheLast | league/families.py:960-967 | the checkpoint is the last scheduled look a count has reached and the next the first it has not |
| SwingLaws.NoLookBetween | league/families.py:960-967 | no scheduled look comes between the two |
| SwingRuns.EntryIsLicensed | league/families.py:1084-1096 | a family enters the swing exactly when proven, released, at a passing look, with an approval no change came after and whose look has come if prepared |
| SwingRuns.OneApprovalOneStay | league/allocator.py:1393-1444 | over every run of passes, verdicts, written rows and lost state, whatever state is restored, no two entries rest on the same audit |
| SwingRuns.StaysOnNoApproval | league/families.py:1155-1169 | a family swings on no entry exactly when a lost state was restored from a row that said "swing" and every pass since has held |
| SwingRuns.RestoredStayHasNoApproval | league/allocator.py:1690-1709 | a run in which a family leaves the swing before its row is written again, loses its state and swings on with no audit on record |
| SwingRuns.FailuresPrecedeTheVerdict | league/allocator.py:1410-1422 | in every run each pass that read a standing approval's look as failed came before its verdict |
| SwingRuns.ApprovalStands | league/allocator.py:1393-1444 | an approval stands exactly through events that neither read its look as failed, nor show a later change once it is asked of, nor leave the swing, nor lose the state, and its audit never comes back |
| SwingRuns.CarriedOverExactly | league/allocator.py:1410-1422 | whatever was read before its verdict, an approval licenses a later passing look exactly when nothing since the verdict ended it |
| SwingRuns.CheckpointsRise | league/families.py:960-967 | checkpoints never fall as settlements come and are the last one reached |
| SwingRuns.EntryLookIsReached | league/allocator.py:1410-1420 | in every run an entry's approval was for a look at or below the checkpoint that passed exactly when it is still "prepared" or the checkpoint has not fallen below the one its audit was asked at |
| SwingRuns.ShrunkRecordEntersEarly | league/allocator.py:1416-1422 | a record that shrinks enters at the look at ten on an approval asked for at fifteen |
| SwingRuns.CarriedOverAFailedLook | league/allocator.py:1416-1422 | an approval for the look at ten, judged after that look failed, licenses the look at fifteen |
| Envelope.RowLeaves | league/accounting.py:68-84 | cash and cost are stakes and realized results but for exactly what a row leaves unexplained |
| Envelope.SaleOfHeldIsLawful | league/book.py:925-935 | selling no more than is held leaves nothing unexplained |
| Envelope.Floor.HeadroomNow | league/allocator.py:889-931 | the grant and realized results less everything at risk, seat by seat |
| Envelope.Floor.Lend | league/book.py:1002-1020 | lends or takes back exactly the stake, refused past the venue's cash, past free cash, or before the book is reconciled |
| Envelope.Floor.Size | league/allocator.py:2955-3023 | a seat is sized by what the headroom and the record allow where the book accepts it, and nothing else moves |
| Envelope.Floor.Enter | league/house.py:2771-2793 | a promoted newcomer is lent its stake where the headroom but for itself covers it and the book accepts it |
| EnvelopeLaws.LendsExactly | league/book.py:1002-1020 | a stake is lent exactly where the venue, once read, holds all that is then lent, taken back exactly where the seat still holds what its buys reserve, and moves nothing but that seat's cash and loan |
| EnvelopeLaws.OwedAgain | league/house.py:2771-2793 | an account owes its first stake until one is lent, and another once a taking back left it neither cash nor holdings |
| EnvelopeLaws.SizesExactly | league/allocator.py:2955-3009 | what is sized is the largest whole-cent raise or cut that fits, exactly where the gap and the move are worth making and a raise is not barred |
| EnvelopeLaws.SeatIsSized | league/allocator.py:2955-3023 | and is made exactly where the book accepts it, against the headroom as it stands; where nothing moves nothing changes |
| EnvelopeLaws.EntersExactly | league/house.py:2771-2793 | a newcomer is lent its stake exactly where it is owed one, the grant, what the other accounts free and its own result hold it, and the venue's cash does |
| Envelope.RowsConserveHeadroom | league/allocator.py:889-931 | a fill, settlement or correction on a funded seat moves the headroom by its overdraft and what it leaves unexplained, and otherwise by nothing |
| Envelope.RowMovesHeadroom | league/allocator.py:889-931 | a row on any account, seated, winding down or gone, moves the headroom by what it leaves unexplained and its overdraft, or the idle cash it brings, and a stake it makes owed again |
| Envelope.LawfulRowTakesNothing | league/allocator.py:889-931 | a row that keeps the account law, overdraws nothing, spends no idle cash and makes no stake owed again takes nothing |
| Envelope.SweepKeepsHeadroom | league/house.py:6038-6047 | a sweep leaves the headroom as it is, and the account empty where nothing is reserved |
| Envelope.SizingNeverOvershoots | league/allocator.py:2955-3009 | equity ends between where it was and the target, a losing bunt's loan never passes it, a raise fits the headroom and a cut the free cash |
| Envelope.SizingSettles | league/allocator.py:2955-3009 | with target and record fixed, one move is the last |
| Envelope.SizingCosts | league/allocator.py:2998-3008 | a raise costs the headroom itself, a cut gives itself back, a refused move nothing, and none takes it below zero |
| Envelope.EntryCosts | league/allocator.py:2843-2868 | a newcomer's seat costs at most the stake it is owed and the cash its account had idle, and exactly that where the cash is not negative, lent or refused |
| Envelope.NeverOverspent | league/allocator.py:2843-2868 | no interleaving of seats, sizings, fills, settlements, corrections, departures, wind-downs, sweeps and returns takes the headroom further below zero than what no check asks for, named event by event |
| Envelope.EntryStaysInside | league/allocator.py:2843-2868 | a seat stays inside exactly when the headroom covers its stake and its idle cash |
| Envelope.IdleCashOverspends | league/allocator.py:2843-2868 | a newcomer that holds a contract to settlement, with five idle dollars, takes a headroom of three below zero |
| Bands.BandsSettle | league/allocator.py:665-732 | asked again on one record, bands settle within two moves exactly when it is not both drawn down past its line and fit to be seated again |
| Bands.MovesExactly | league/allocator.py:665-732 | which evidence moves each band where, threshold by threshold |

## Left out

- SQLite, locks, threads, files, JSON and transactions as mechanisms; alerts, board and status texts, `problems` sentences.
- The campaign policy's parsing and `_amend`'s checks: runs allow any policy at any step, which is more.
- A burst policy's research settings (league/overnight.py:21-33, 40-41): only its caps and its hours are checked.
- Live trading grants and pilots (league/campaigns.py:196-267, 439-485): their answer is the `granted` input.
- `CampaignPacer`, reports and the meter's reconciliation notes: they read and do not decide.
- The gateway's refusal of a call past its cap (gateway/lib/gate.mjs:947-956): calls may be taken without it, which is more.
- Decimal's 28-digit rounding in a sale's basis, and `cents` in the reading: amounts are exact reals.
- `_split_cash`, fee rules and order receipts: a replacement fill is any that moves the same units.
- The incremental fold `_Repairs`: the cutoff is read from the whole ledger.
- Which of the book's orders a broker's order, leg or client id is, and a contract's expiry, symbol and asset class (league/account_activity.py:263-316): maps and fields of the model's book.
- `orders_after`, `shares_held` and `read_book`'s selection: the reading's inputs; what their selection may leave out is the `Strays` and `Homeless` terms.
- `saved` and `restore` of a reading, and its ageing out.
- `log_growth` of an episode: its exact return is kept.
- The t-quantile behind a confidence bound (`bound_gaining`'s `lower`) and the pooled statistics behind looks, bounds and holds: inputs.
- The rest of a pass: deaths, fees, structures' routes, member routes, the agent-level audit, the board; `_persist_families` writes at any moment, not at most every five minutes, which is more.
- The flat envelope (`profit_indexed_envelope` off), `at_risk` of accounts that wind down with resting sells, and marks: a seat's equity is read.
