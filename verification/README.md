# Verified model of the trading engine's safety-critical cores

This project models, in Dafny, the parts of a stock-trading engine whose claims range over whole runs, and proves those
claims. `dafny verify dfyconfig.toml` checks everything.

The engine trades through a broker it does not control. It sees the broker's positions only in snapshots, keeps its own
state across cycles, and paces every call. The modules follow the program:

| file | what it models |
|---|---|
| `Throttle.dfy`, `SlidingWindow.dfy`, `ApiBudget.dfy` | the two sliding-window limiters, spacing, slot reservation, computed waits |
| `RuntimeState.dfy`, `OrderHistory.dfy` | the persisted state: reservations of submitted sells, the bounded order history, expiry |
| `OrderGuard.dfy`, `ReentryDecision.dfy`, `BuyReentry.dfy` | the guards before an order, the re-entry decision, and the re-entry limits over whole days with their saves and reloads |
| `Reconciliation.dfy`, `Suspects.dfy` | bringing reservations in line with the broker's positions, with its audit, and the ledger of suspected manual trades |
| `SellProtocol.dfy`, `OneTrigger.dfy` | trader, disk and broker as a transition system: no oversell over every run |
| `SellHazards.dfy` | the runs of that system that do oversell once a condition is dropped |
| `SellFlow.dfy` | the order part of a SELL with its handlers, and how it fits into the transition system |
| `SafetyState.dfy` | loading and saving the state, failing closed |
| `PositionSizing.dfy`, `BuyFlow.dfy` | order sizing by binary search, and the BUY path with its gates and exception handlers |
| `TailReader.dfy`, `OrderLog.dfy` | the chunked backward reader and the cached log reader against whole-file specifications |
| `TradeJournal.dfy` | first-in-first-out pairing of orders into trades |
| `Autotuner.dfy`, `ActiveBundle.dfy` | validation of proposals, the single active proposal, the safer-of merge |
| `SellWatch.dfy` | how many holdings a tick looks at, in which order, and whom a run of ticks reaches |
| `Visits.dfy`, `Runs.dfy`, `Prelude.dfy` | loops over the keys of a dictionary in any order; what comes in between in a run; small vocabulary |

Objects that the program updates in place are classes whose methods are proved against functions on values; what the
program promises is then proved about those functions. Time is a real number (seconds in the limiters, minutes in the
state); a calendar day is represented by the midnight it starts at.

## What turned out differently from what one would expect

Each of these is a lemma: the exact condition, a run that shows it, or both.

- **No oversell needs a long enough memory.** With the one-trigger rule on, a reservation behind a live order expires,
  in a prune or within a sync, exactly when it is old enough and the order's outcome has left the fifty-record history
  (`BusyExpiresIffForgotten`); from then on the guard admits an oversell at once (`ExpiryLetsOversell`), and on every
  fresh day there is a run under the rule that gets there (`ForgettingOversells`). A run whose records all fit into
  the history is safe with no such condition (`FewRecordsAreSafe`).
- **No oversell needs saves that succeed, or fail badly.** After a reload the guard can oversell exactly when more is
  at work than the saved state reserves (`ReloadOversellsIff`); a run that saves after its submissions before it
  reloads never gets there (`SavedInTimeNeverLoses`). A save that tears the file does no such harm: the reload finds
  nothing to trust, and no sell follows that day (`TornSaveStopsSells`). It does change the reason for which a blocked
  state is blocked, and only it does (`StaysBlocked`).
- **A sell gives its reservation back whatever was raised**, also when the order has reached the broker, or was
  recorded as succeeded, and also when nothing was reserved yet and an older reservation shrinks instead (`CoversIff`,
  an if-and-only-if); the guard then oversells exactly when more is at work than is still reserved
  (`GiveBackOversellsIff`). The flow keeps to what the no-oversell theorem asks of it exactly when nothing is raised
  too early or too late (`KeepsReservationsIff`).
- **Without the one-trigger rule** a rejected second sell hides the first one that is still at work, and its
  reservation expires, on every fresh day (`SecondTriggerOversells`).
- **A second prune at the same moment** changes nothing except when the emergency time to live is zero and an
  emergency reservation had no readable submit time (`PruneTwice`, an if-and-only-if).
- **A BUY can be recorded as succeeded and as failed**, exactly when telling about the success raises (`OneOutcome`).
  A SELL can be recorded as both or as neither (`OutcomesOfTrial`, both if-and-only-if).
- **The daily BUY limit is kept by the re-entry decision, not by the guard.** The guard counts in the bounded history,
  so by itself it would admit one buy more than any limit (`GuardAloneExceeds`), exactly when enough buys of the
  symbol have left the history (`PastLimitIff`). The BUY flow asks for a re-entry decision first, which counts in the
  daily counter and refuses that buy, so no run takes the counter past the limit (`CounterStaysWithin`), nor the day's
  buys if each is saved before the next reload (`BuysStayWithin`). A save lost in between lets the day exceed the
  limit exactly when the file does not know of all its buys (`LostSaveExceedsIff`).
- **A fresh setup after a stop loss needs no waiting time** beyond the floor of its day: the shorter wait that is
  meant for it only decides which label the permission gets, and one without any wait is reported as due to the time
  that has passed (`FreshSetupNeedsNoWait`).
- **A reload forgets the emergency trigger** of a reservation, which then ages like any other
  (`ReloadForgetsEmergency`).
- **The merge of tuned settings** breaks the nesting of two caps exactly when the outer cap is overridden to less than
  the inner one is, and to less than the inner one is overridden to (`NestingBreaksIff`), and an accepted, active
  proposal can do that (`NestingCanBreak`). The daily limit zero means "no limit" yet counts as the safer number, so
  that a merge brings in a limit only where there was one or no number at all (`LimitAppliesIff`).
- **A proposal may set a value to "NaN"**, which no bound or step keeps out (`NaNIsHandedOut`); a value handed out is
  within its bounds exactly unless it is that (`ResolvedIsBounded`), and a merge takes it exactly where there was no
  number (`TunedStaysInBounds`).
- **Rate limits let holdings starve.** A run of ticks reaches a holding exactly when it lies less far ahead than the
  ticks reach, and a rate limit takes that reach back (`ReachedIff`); if every look meets one, any number of looks
  sees a single holding (`RateLimitsStarve`). Without rate limits nobody starves (`NobodyStarves`), except that while
  risk comes first exactly the holdings before the farthest place visited are seen (`RiskFirstReaches`).
- **A tick that has a budget but ends before its first look** loses the holding it was to start with, and so does a
  closed market, while a tick without budget does not (`RetrySurvivesIff`).
- **Branches that cannot be taken**: for a positive price the sizing never reports "quantity or price limited"
  (`CalculatePositionSizing`), the BUY flow's error "orderable quantity insufficient" cannot be raised
  (`SentIsAffordable`), and its second check for a closed market stops nothing (`SecondSessionCheckIsDead`).

## Model

| member | source | states |
|---|---|---|
| SellProtocol.RunNeverOversells | app/core/reconciliation.py:160-224 | over every interleaving of snapshots, syncs, prunes, guarded submits, fills, rejections, recorded outcomes, reservations given back, purchases, saves that are written, left undone or torn, and reloads, what a trusted state reserves covers everything outstanding plus everything filled since the last sync, so what is on offer never exceeds what is held, as long as no reservation expires with something at work behind it, no reload loses a submission and nothing is given back but what was rejected |
| SellProtocol.StepKeepsCovered | app/execution/order_guard.py:335-375 | each single step keeps that balance for every symbol |
| SellProtocol.FollowsAdds | app/core/reconciliation.py:171-206 | the arithmetic of one symbol, in memory and on disk: shrinking by the observed drop, clamping to holdings, reserving on submit, saving and reloading keep the balance |
| SellProtocol.SyncMoves | app/core/reconciliation.py:160-227 | what a sync does to one symbol's reservation, book and snapshot |
| SellProtocol.SubmitMoves | app/execution/sell_flow.py:386-410 | a submit raises exactly its own symbol's reservation by the submitted quantity and marks the symbol as triggered |
| SellProtocol.NoteSellSubmission | app/execution/sell_flow.py:386-410 | trigger mark, reservation and history record of a submission, done on the state object, amount to the protocol's submit step |
| SellProtocol.ResolveMoves | app/runtime_state.py:790-822 | giving back lowers the reservation by the given shares, and what was rejected with it, and no further than to zero |
| SellProtocol.SaveMoves | app/runtime_state.py:389-403 | a save that is written makes the record on disk the one in memory, one that leaves the file alone changes nothing, and a torn one leaves a record that reserves nothing and is not trusted |
| SellProtocol.ReloadMoves | app/runtime_state.py:359-386 | a reload makes the record in memory the one on disk, and what was filled since the snapshot the saved state knows of counts as unsynced |
| SellProtocol.ReloadOversellsIff | app/runtime_state.py:389-403 | after a reload the largest sell the guard can admit oversells iff more is at work than the saved state reserves |
| SellProtocol.TornSaveStopsSells | app/runtime_state.py:359-403 | after a torn save and a reload no sell passes the guard any more in any run, and none of them oversells |
| SellProtocol.ReloadIsLoad | app/runtime_state.py:359-403 | saving and reloading in the protocol leave what saving to the file and loading it on the same day leave, for each way a save can end |
| OneTriggerRule.RuleNeverOversells | app/execution/order_guard.py:388-398 | with one trigger per symbol and day, the history remembering an outcome of every busy symbol at each sync and prune, no reload losing a submission, and nothing at work being given back or called a failure, no run oversells |
| OneTriggerRule.FewRecordsAreSafe | app/runtime_state.py:466 | a run that writes no more records than the history holds needs no remembering, only reloads that lose nothing and no premature give-back or failure |
| OneTriggerRule.WritingsAreSteps | app/runtime_state.py:442-466 | the records a run writes are its submissions, recorded outcomes and other records |
| OneTriggerRule.ReservedAdmitsNone | app/execution/order_guard.py:388-398 | under the rule a symbol with a live reservation admits no second sell |
| OneTriggerRule.BusyExpiresIffForgotten | app/runtime_state.py:706-729 | under the rule a reservation of a trusted state behind a live order expires, in a prune or within a sync, iff it is old enough, no outcome of it is left in the history, and the sync has left any of it |
| OneTriggerRule.SavedInTimeNeverLoses | app/runtime/cycle_phases/finalize.py:713 | a run in which the state is saved, or the file torn, between its submissions and its next reload never loses one |
| OneTriggerRule.SavesInTimeIff | app/runtime/cycle_phases/finalize.py:713 | saving in time means that a save that writes or tears the file comes between each submission and every reload after it |
| SellHazards.ExpiryLetsOversell | app/execution/order_guard.py:335-375 | whenever a reservation expires with shares at work behind it, the guard admits all shares seen again, and more is on offer than is held |
| SellHazards.ForgettingOversells | app/runtime_state.py:466 | from every fresh day with shares to sell, the run that sells them all, writes fifty other records and prunes ten minutes later ends in an oversell |
| SellHazards.ForgettingAbides | app/execution/order_guard.py:388-398 | although that run obeys the rule throughout |
| SellHazards.SecondTriggerOversells | app/runtime_state.py:719-722 | from every fresh day with at least two shares, the run with the rule off that sells one, has a second sell rejected and prunes ten minutes later ends in an oversell |
| SellHazards.GiveBackOversellsIff | app/runtime_state.py:790-822 | after shares of a reservation were given back, the largest sell the guard can admit oversells iff more is at work than is still reserved |
| SellFlows.SellFlow.SubmitOrder | app/execution/sell_flow.py:365-640 | the try block with its handlers: what is recorded, what the state becomes, and when it raises, whichever log or notification raises |
| SellFlows.SellFlow.TryOrder | app/execution/sell_flow.py:365-552 | what the try block itself reserves and records, and whether the failure is already logged |
| SellFlows.ReservationAfterTrial | app/execution/sell_flow.py:386-622 | the reservation grows by the order, is as before, or, when nothing was reserved yet, shrinks by the order |
| SellFlows.CoversIff | app/execution/sell_flow.py:553-622 | the reservation covers the earlier one and whatever the broker works on iff nothing is raised once the broker has the order, nor before reserving beside an older reservation |
| SellFlows.OutcomesOfTrial | app/execution/sell_flow.py:365-640 | the reservation is given back iff the flow raises; a SELL has no recorded outcome iff no answer was recorded and the handler's log raises, two iff telling about a recorded success raises and the handler's log does not, and else one |
| SellFlows.SuccessMarks | app/execution/sell_flow.py:528-531 | a symbol becomes marked as sold iff a full close of it was accepted and recorded, and the rebalance counter grows by one iff a rebalance was |
| SellFlows.TrialIsProtocol | app/execution/sell_flow.py:365-640 | every admitted sell is a run of the sell protocol and ends in its state, whatever raises |
| SellFlows.KeepsReservationsIff | app/execution/sell_flow.py:553-640 | that run keeps to what the no-oversell theorem asks for iff nothing is raised before the order is reserved, nor once the broker has it |
| SellFlows.OrderlyFlowNeverErrs | app/execution/order_guard.py:388-398 | under the one-trigger rule such a flow gives nothing back and calls nothing a failure that is at work |
| OneTriggerRule.StepKeepsSteady | app/runtime_state.py:588-614 | each step under the rule keeps at most one order at work per symbol, whose outcome is the latest known |
| OneTriggerRule.DayStarts | app/runtime_state.py:27-157 | a day with nothing reserved and nothing on offer satisfies all invariants |
| OrderHistory.KeptLatest | app/runtime_state.py:442-466 | after a record the latest sell outcome of its symbol is that record; that of any other symbol stays or is forgotten, never replaced by an older one |
| RuntimeStates.RuntimeState.AddRecentOrder | app/runtime_state.py:442-470 | appends one record, keeps the last fifty, and counts exactly the BUY submissions |
| RuntimeStates.RuntimeState.MarkSellIntentSubmitted | app/runtime_state.py:588-614 | adds to the reservation, restamps it, keeps the earlier trigger unless a new one is given; ignores empty symbols and non-positive quantities |
| RuntimeStates.RuntimeState.ResolveSellIntent | app/runtime_state.py:790-822 | subtracts or clears; a remainder keeps its stamp and loses its trigger |
| RuntimeStates.RuntimeState.MarkSellTrigger | app/runtime_state.py:511-527 | records symbol and signature of an attempt |
| RuntimeStates.RuntimeState.LatestSellOrderAction | app/runtime_state.py:633-652 | the scan returns the action of the latest readable sell outcome |
| RuntimeStates.LatestSellIsLatest | app/runtime_state.py:633-652 | that outcome is the last recorded among those with the greatest time, and there is none iff no readable outcome exists |
| RuntimeStates.RuntimeState.PruneStaleSellIntents | app/runtime_state.py:664-747 | the loop releases exactly the reservations due, reports each once, and refreshes unstamped and older-form ones, whatever the order of keys |
| RuntimeStates.RuntimeState.PruneStaleSellIntentsWithAudit | app/runtime_state.py:750-787 | the same with the default times, audited in the bounded adjustment list |
| RuntimeStates.PruneAccounts | app/runtime_state.py:664-747 | released and kept partition the reservations; every release had reached its applicable time to live and no outcome that speaks for a live order |
| RuntimeStates.PruneTwice | app/runtime_state.py:690-717 | a second prune at the same moment changes nothing iff the emergency time is positive or no unstamped emergency reservation could go at once |
| RuntimeStates.DayIsMidnight | app/runtime_state.py:23-24 | the day a record belongs to starts at the last midnight before it |
| OrderGuards.LastSymbolOrderWithinMinutes | app/execution/order_guard.py:148-176 | the backward scan measures the age of the last readable match |
| OrderGuards.CountSymbolOrdersToday | app/execution/order_guard.py:115-135 | counts exactly the matching records of the day |
| OrderGuards.StricterRulesAdmitLess | app/execution/order_guard.py:179-302 | longer cooldowns and smaller positive limits never admit what was refused |
| OrderGuards.BuyVerdict | app/execution/order_guard.py:179-302 | a BUY is blocked for the first of six reasons that holds, with its flag for waiting: untrusted state, refused re-entry, the last readable entry of the day too recent, as many entries of the day as the limit, the same attempt repeated, the same quantity ordered lately |
| OrderGuards.SellVerdict | app/execution/order_guard.py:305-432 | a SELL is blocked for the first reason that holds: untrusted state, nothing held, everything reserved, more than the rest, resold today, a second trigger beside a reservation, and, unless it is a stop loss, the same attempt repeated or the same quantity sold lately |
| ReentryDecisions.AllowedIsBelowLimit | app/strategy/reentry.py:157-366 | whatever the last exit was for, a symbol at its daily limit or with a residual position is refused |
| ReentryDecisions.AllowedIff | app/strategy/reentry.py:132-376 | a symbol may be bought again iff nothing of it is left, its daily limit is not reached, and the waiting time, setup and market that its kind of last exit asks for are there |
| ReentryDecisions.StateMeans | app/strategy/reentry.py:157-376 | the reported state names what speaks against the symbol, in that order, or by what right it is bought again |
| ReentryDecisions.WaitingNeverHurts | app/strategy/reentry.py:132-376 | what is allowed now is allowed at any later time, all else being equal, also across the floor of the day |
| ReentryDecisions.StricterAllowsLess | app/strategy/reentry.py:132-376 | a longer cooldown and a smaller positive limit never allow what was refused |
| ReentryDecisions.FreshSetupNeedsNoWait | app/strategy/reentry.py:213-264 | after a stop loss a fresh setup is allowed iff market and limit allow it and the floor of its day is past, and is reported as time decay iff less than the shorter wait has passed |
| BuyReentry.RunStaysWithin | app/execution/order_guard.py:244-270 | over every run with saves and reloads, with rules that may change within bounds, per day and symbol the history in memory and on disk holds at most the bound of submissions, any two are strictly more than the cooldown's bound apart, and the daily counter never falls behind them |
| BuyReentry.NewDayIsTrusted | app/runtime_state.py:205-232 | a day starts over with nothing and full trust, unless the file is unreadable or of another account |
| BuyReentry.CounterStaysWithin | app/execution/buy_flow.py:537-547 | as long as every BUY asks for a re-entry decision first, no run takes a symbol's daily counter past the greatest limit in use, in memory or on disk, whatever leaves the history |
| BuyReentry.BuysStayWithin | app/strategy/reentry.py:157-198 | nor the number of the day's buys, if the state is saved, or the file torn, between a BUY and the next reload |
| BuyReentry.SavesInTimeIff | app/runtime/cycle_phases/finalize.py:713 | saving in time means that a new day, or a save that writes or tears the file, comes between each BUY and every reload after it |
| BuyReentry.LostSaveExceedsIff | app/runtime_state.py:389-403 | after a reload a symbol can be bought until the file's counter meets the limit, which takes the day past it iff the file does not know of all earlier buys |
| BuyReentry.PastLimitIff | app/execution/order_guard.py:259-270 | a BUY that the guard admits takes the day's counter of its symbol past the limit iff at least as many submissions of it have left the history as the history is short of the limit, which is never so for a BUY that asked first |
| BuyReentry.FewRecordsKeepTheLimit | app/runtime_state.py:442-470 | a day without a reload whose records all fit into the history keeps every symbol's counter within the limit by the guard alone |
| BuyReentry.GuardAloneExceeds | app/execution/order_guard.py:259-270 | for every positive limit, after that many buys and fifty other records of one day the guard alone admits one buy more, and refuses it once a re-entry decision is asked for, whatever the situation |
| Reconciliations.BuildReconciliationReport | app/core/reconciliation.py:38-149 | the report holds each symbol's unexplained drift and excess reservation, and nothing else |
| Reconciliations.AtMostOneEach | app/core/reconciliation.py:73-134 | a symbol has at most one event that raises suspicion and at most one that does not, the latter iff more is reserved than is held |
| Reconciliations.DriftPointsTheWay | app/core/reconciliation.py:25-134 | a symbol drifts iff its quantity changed since the last sync and none of its own orders has left a record since then, and its classification names the direction: a manual buy iff there is more, a manual sell iff the position is gone |
| Reconciliations.ActiveIffOwnOrder | app/core/reconciliation.py:52-71 | a symbol counts as locally active iff one of the five order records of it is later than the last sync, or has a time that cannot be compared |
| Reconciliations.SyncReconciliationState | app/core/reconciliation.py:152-274 | the whole sync on the state object: report, pass, expiry, audit and bookkeeping of the snapshot |
| Reconciliations.PassArithmetic | app/core/reconciliation.py:171-212 | after the pass a reservation is zero when the position is gone and else the smaller of holdings and what the drop leaves; an entry stays iff that is positive, with stamp and trigger |
| Reconciliations.SyncTrailTelescopes | app/core/reconciliation.py:280-297 | a symbol's adjustments start at its old reservation, each where the one before ended, and end at its new one |
| Reconciliations.SyncIsAudited | app/core/reconciliation.py:160-227 | over all symbols the reservation lost in a sync is the sum of the audited differences, expiries included |
| Suspects.SuspectLedger.UpdateManualTradeSuspects | app/core/reconciliation.py:308-367 | upserts every suspect event, resolves live suspects without one, and evicts the earliest detected beyond thirty |
| Suspects.LedgerTellsTheTruth | app/core/reconciliation.py:308-367 | after every run of syncs the ledger has at most thirty entries, an entry is unresolved iff its symbol drifted in the last sync, its occurrences are the length of its latest streak since insertion, and a symbol that drifted is in it unless it is full |
| Suspects.ActiveIffDrifted | app/core/reconciliation.py:308-330 | a symbol is active in a report iff its holdings drifted without a local order to explain it |
| SafetyStates.NormalizeState | app/runtime_state.py:195-356 | the field-by-field normalization yields the specified state: blocked with its reason, empty, or restored |
| SafetyStates.NormalizeTwice | app/runtime_state.py:195-356 | normalizing a normalized state changes nothing |
| SafetyStates.LoadFailsClosed | app/runtime_state.py:359-386 | a file is loaded as trusted iff its account signature is empty, the current one, or the legacy one in a non-primary place, and its day is today with nothing marked untrusted, or another day without having been modified today; else the state is blocked with exactly the reason that comes first |
| SafetyStates.LoadedIsBlankOrRestored | app/runtime_state.py:195-386 | a trusted file of the day is restored field by field: positive reservations of real symbols without their trigger, the snapshot, the blocked symbols under their newer names and none for sells without any trace of a sell, all else as it is; anything else comes out blank, for today and the current account |
| SafetyStates.StaysBlocked | app/runtime_state.py:359-403 | a state found blocked is loaded as blocked through every cycle of the day, however its saves end, and with the same reason iff none of them tears the file or it was unreadable to begin with |
| SafetyStates.TornSaveBlocks | app/runtime_state.py:370-403 | a torn save blocks the rest of the day, whatever the state was before |
| SafetyStates.BlockedRefusesAllDay | app/execution/order_guard.py:38-47 | so all three guards refuse all day, however saves end |
| SafetyStates.SaveThenLoad | app/runtime_state.py:234-273 | a trusted state of the day keeps history, flags and every positive reservation with quantity and stamp through save and load |
| SafetyStates.ReloadForgetsEmergency | app/runtime_state.py:254-273 | after a reload a reservation is released iff it has reached the ordinary time to live and nothing speaks for a live order |
| RateLimits.Resolve | app/core/kis_rate_limits.py:29-70 | the clamp: at most 1 request per second and 1.05 s spacing in mock, at most 18 per second in live, never looser than configured |
| RateLimits.ResolveIsExact | app/core/kis_rate_limits.py:29-70 | and no tighter than it has to be: as many requests as the configuration and the environment allow, spaced exactly as both demand |
| RateLimits.ApartIff | app/core/throttle.py:219-224 | a call without an interval is held to exactly an even share of the second, the configured spacing, and the 1.05 s of mock or the 0.1 s of live trading, and any other call to its own interval |
| Throttling.Throttle.Acquire | app/core/throttle.py:191-278 | one call sleeps the shortest time after which spacing and both windows let it leave, plus the adaptive delay, and is recorded at the moment it leaves, which is as far from the last call as it asked for, or as settings and environment demand |
| Throttling.ShortestSleep | app/core/throttle.py:243-266 | no shorter sleep would do |
| Throttling.NoWindowIsCrowded | app/core/throttle.py:226-280 | in every reachable state no one-second window, wherever it lies, ever held more calls, or more quotes, than its limit |
| Throttling.NoCrowdedWindow | app/core/kis_rate_limits.py:29-70 | hence at most 1 call per second in mock and 18 in live, whatever the operator configured |
| Throttling.DefaultSpacing | app/core/throttle.py:219-254 | calls without an interval of their own keep an even share of the second, the configured spacing, and 1.05 s in mock or 0.1 s in live trading, in every throttle, and the distances add up |
| Throttling.CallsAreApart | app/core/throttle.py:219-254 | every two consecutive calls of a throttle, whatever happened in between, are as far apart as the later one asked for, or as settings and environment demand |
| Throttling.AdaptiveDelayMeans | app/core/throttle.py:175-189 | while a penalty lasts the extra delay is what was asked for to a twentieth of a millisecond, and otherwise there is none |
| SlidingWindow.PacedWindowsAreSmall | app/core/throttle.py:75-80 | entries that are the limit apart lie a window apart, hence every real window is small |
| SlidingWindow.SmallWindowsArePaced | app/core/throttle.py:75-80 | and conversely |
| SlidingWindow.PopOld | app/core/throttle.py:75-80 | popping old entries yields the pruned ledger |
| SlidingWindow.CountIsSize | app/core/throttle.py:75-80 | what is counted in a window is the number of places of the log with an entry less than a second old |
| Throttling.Throttle.NoteRateLimit | app/core/throttle.py:152-173 | the penalty recorded after a rate-limit reply, with its defaults |
| Throttling.Throttle.WaitForRequestSlots | app/core/throttle.py:281-337 | after the wait the window has room for the reserved calls, and nothing was recorded; a sleep shorter by more than the margin would leave too much in the window or be too close to the last call |
| Throttling.ReservedCallsPassTheWindow | app/core/throttle.py:281-337 | none of the reserved calls is held back by the window, whenever they arrive |
| Throttling.PlaceOrder | app/domestic_stock/order.py:38-57 | the two requests of an order on the throttle object, after waiting for their slots: the first leaves as soon as spacing allows, and so does the second unless the window takes a single request |
| Throttling.OneCallTooMany | app/core/throttle.py:281-337 | one call more can be held back, so the reservation is exact |
| ApiBudgets.ApiBudget.CanRequest | app/core/runtime_budget.py:190-211 | grants iff no back-off is active and the fresh requests leave room |
| ApiBudgets.ApiBudget.RegisterRequests | app/core/runtime_budget.py:298-310 | adds the requests to what is still fresh, and nothing for a non-positive count |
| ApiBudgets.ApiBudget.RemainingRequests | app/core/runtime_budget.py:214-235 | the largest number of requests there is room for |
| ApiBudgets.ApiBudget.MinWaitForRequestSlot | app/core/runtime_budget.py:364-380 | computes the wait from the pruned requests |
| ApiBudgets.WaitSuffices | app/core/runtime_budget.py:364-380 | waiting that long or longer makes room if cost and reserve fit the limit at all, and otherwise no wait ever does |
| ApiBudgets.WaitIsTight | app/core/runtime_budget.py:364-380 | any wait shorter by more than the margin leaves no room |
| ApiBudgets.CheckedRunStaysWithinLimit | app/core/runtime_budget.py:180-211 | checking before registering keeps every one-second window of the requests of every run within the limit |
| Costs.CostsMonotone | app/core/costs.py:36-111 | entry, exit and round-trip costs with half-even rounding are monotone in the notional |
| Costs.EstimateMeans | app/core/costs.py:36-111 | each cost is the notional times its rate in basis points, rounded half to even, with negative rates and notionals counted as zero; entry, exit and round trip are their sums |
| PositionSizings.MaxQtyWithEntryLimit | app/execution/position_sizing.py:39-54 | the binary search finds the largest quantity within the limit |
| PositionSizings.CalculatePositionSizing | app/execution/position_sizing.py:20-236 | the recommendation is the largest quantity that is orderable, within the maximum quantity, and whose entry cost fits cash, budget, and the stated percentage of the evaluation, or of the cash if there is none; the rescue yields one share exactly when only the budget stands against it; block reasons mean what they say, and each partial quantity is the largest that its own limit leaves |
| PositionSizings.ExposureIff | app/execution/position_sizing.py:72-76 | an amount fits the exposure iff a hundred times it is at most the evaluation, or else the cash, times the percentage |
| PositionSizings.EntryCostMeans | app/execution/position_sizing.py:30-37 | the entry cost is quantity times price plus rounded fee and slippage |
| PositionSizings.EntryCostMonotone | app/execution/position_sizing.py:30-37 | the entry cost is monotone in the quantity and positive for positive quantities |
| BuyFlows.BuyFlow.RunBuyOrderFlow | app/execution/buy_flow.py:564-1792 | re-entry decision, gates, sizing, guard, budget and order in sequence: the log, the state, the budget's window and whether it raises are determined by the first closed gate and the answers of the outside world |
| BuyFlows.BuyFlow.SubmitOrder | app/execution/buy_flow.py:1509-1792 | the try block with its handlers records a failure exactly once and raises again |
| BuyFlows.BuyFlow.TryOrder | app/execution/buy_flow.py:1511-1689 | what the try block itself records and raises, and whether the failure is already logged |
| BuyFlows.BuyFlow.PassLateGates | app/execution/buy_flow.py:1160-1507 | the gates behind the sizing, in their order |
| BuyFlows.SentIffClear | app/execution/buy_flow.py:564-1614 | the broker is called iff brake, holding, session, sizing, guard, confirmation, risk guard, session recheck and the two-request budget all passed |
| BuyFlows.SkipMarks | app/execution/buy_flow.py:660-675 | a skipped BUY blocks exactly its own symbol, and leaves a record iff the settings ask for one and the market was closed or a confirmation missing |
| BuyFlows.OneOutcome | app/execution/buy_flow.py:1509-1792 | the broker is called at most once; no outcome without a submission; exactly one outcome per submission iff telling about a success does not raise |
| BuyFlows.SentIsAffordable | app/execution/buy_flow.py:1512-1513 | the quantity sent can be ordered and is covered by cash and exposure, so the error "orderable quantity insufficient" is unreachable |
| BuyFlows.SubmissionObeysReentry | app/execution/buy_flow.py:1224-1258 | every submission of the flow is a BUY that asks for its re-entry decision first and leaves the state the re-entry runs reckon with |
| BuyFlows.SecondSessionCheckIsDead | app/execution/buy_flow.py:1375-1400 | no BUY is ever skipped at the second check for a closed market |
| TradeJournals.BuildTradeJournal | app/dashboard/normalizers.py:785-858 | every successful buy with a symbol is shown in exactly one closed or open trade and every successful sell in exactly one closed or sell-only trade; closed buys are a prefix of the buys, and no closed trade has its sell stamped earlier than its buy, character by character |
| TradeJournals.ProcessAccounts | app/dashboard/normalizers.py:788-841 | per symbol, after any prefix of orders, closed and waiting buys are all buys in order, and sell-only trades number the shortfall |
| TradeJournals.ShortfallIsMax | app/dashboard/normalizers.py:788-841 | the shortfall is the maximum over prefixes of sells minus buys |
| TradeJournals.FifoClosesTheMost | app/dashboard/normalizers.py:788-841 | no pairing that respects the order of events closes more trades |
| TradeJournals.ProcessPairsInOrder | app/dashboard/normalizers.py:799-823 | every closed trade pairs a buy with a later sell of the same symbol |
| TradeJournals.ByTimestampIsStable | app/dashboard/normalizers.py:790 | ordering by timestamp keeps orders of the same time in their order |
| TradeJournals.SortedByTime | app/dashboard/normalizers.py:790 | the processed orders are the given ones, and none of them follows one with a later timestamp |
| TradeJournals.EarlierComesFirst | app/dashboard/normalizers.py:790 | if the timestamps of two processed orders agree up to some place, and one ends there or has the smaller character there, then its order comes first |
| TailReading.TailLinesBounded | app/core/file_read_limits.py:172-226 | the chunked backward reader hands out exactly the last lines of splitting the whole file, for every file, chunk size and number, or stops for the stated limit |
| TailReading.TailOfWindow | app/core/file_read_limits.py:186-211 | a window with enough line feeds shows the last lines of the whole file, even if it starts inside a line or between CR and LF |
| TailReading.SplitAtLineFeed | app/core/file_read_limits.py:205-211 | a line feed is a clean cut |
| TailReading.LinesEnd | app/core/file_read_limits.py:218 | LF, CR LF, and a CR that no LF follows each end one line, and the rest is split by itself; what has no such ending is one line, if it is not empty |
| TailReading.LFLinesEnd | app/core/file_read_limits.py:100-118 | the lines of the tolerant reader end at a line feed and nowhere else |
| TailReading.TailLinesWindow | app/core/file_read_limits.py:77-129 | the tolerant reader hands out only complete lines that end the file, less those above the limit, which it reports |
| TailReading.WindowLines | app/core/file_read_limits.py:100-118 | all lines of a window but its first are lines of the whole file and end it |
| OrderLogs.LogCache.ReadLogLinesCached | app/core/order_log.py:90-170 | through the cache every strict or lenient read returns what an uncached parse would, or the same reason |
| OrderLogs.LogCache.IterTodayRecords | app/core/order_log.py:189-217 | the day's records of all files, or the first refusal |
| OrderLogs.LogCache.CountTodayOrderSubmissions | app/core/order_log.py:446-453 | counts them |
| OrderLogs.StrictVersusLenient | app/core/order_log.py:133-148 | a malformed line is all that separates the two readers, which is why a cached error count suffices |
| OrderLogs.ParsedMeans | app/core/order_log.py:90-163 | a strict reader refuses for the first thing in its way, be it the file, its size or a line; a lenient one never refuses and then finds nothing |
| OrderLogs.RefusedNamesTheFirst | app/core/order_log.py:133-163 | a refusal names the first line that stops the reader as it meets them, and there is none iff no line does |
| OrderLogs.DecodingComesFirst | app/core/file_read_limits.py:68-74 | a read fails on its bytes iff the reader reaches a buffer that cannot be decoded, even past an earlier malformed line of that buffer |
| OrderLogs.AppendReads | app/core/order_log.py:434-439 | appending a record adds it to what is read and never repairs or breaks a log |
| OrderLogs.AppendCounts | app/core/order_log.py:446-453 | a record dated today with a wanted action becomes the last of the day's records, any other record makes no difference |
| Autotuning.ValidateProposal | app/autotuner/validator.py:33-187 | collects every rejection of header, changes and cross-parameter order |
| Autotuning.AcceptedIff | app/autotuner/validator.py:33-187 | a proposal is accepted iff its header is sound, every change is whitelisted, a number or "NaN", from its baseline, within bounds and step as far as it can be compared, and the resulting caps are nested |
| Autotuning.RejectionsMean | app/autotuner/validator.py:33-187 | each rejection is reported iff what it says of header, changes or resulting caps is the case |
| Autotuning.EffectiveValues | app/autotuner/validator.py:217-231 | the baseline overlaid with one change after the other |
| Autotuning.EffectiveIsLast | app/autotuner/validator.py:217-231 | a proposal leads to the value of the last change of a setting |
| ActiveBundles.ProposalStore.SupersedeActiveBundles | app/autotuner/persist.py:55-98 | rewrites exactly the active proposals of the mode other than the one to keep, and lists them |
| ActiveBundles.ReplacementsAt | app/autotuner/persist.py:55-98 | which proposals are replaced, field by field: the approved and unexpired ones of the mode, but for the one to keep; they change in status and audit only, and no other file changes |
| ActiveBundles.OnlyTheKeptStaysActive | app/autotuner/persist.py:55-98 | at every later time a reader of the mode sees of the active proposals exactly the one to keep |
| ActiveBundles.OtherModesUntouched | app/autotuner/persist.py:79-80 | a reader of another mode notices nothing |
| ActiveBundles.ProposalStore.ResolveActiveOverrides | app/autotuner/runtime_override.py:189-214 | exactly one eligible proposal yields its overrides, anything else nothing |
| ActiveBundles.ResolvedIff | app/autotuner/runtime_override.py:57-91 | a value is handed out iff exactly one file holds an accepted, approved, unexpired proposal of the reader's mode, for high risk with a review and two live logs, the reader may override the setting, and the value is that of its last change there |
| ActiveBundles.ResolvedIsBounded | app/autotuner/runtime_override.py:57-91 | every value handed out is for a setting the reader may override and comes from a change of the one active proposal; it is within the bounds, and its change within the maximum step, iff it is not "NaN" |
| ActiveBundles.SoundChangeIsWithin | config/autotuner_whitelist.yaml:11-120 | a change is sound iff it is of one of the settings the readers override, of the five low-risk ones in a low-risk proposal, starts at the number of the baseline, and leads to a number in the range and within the step of its setting, or to "NaN" |
| ActiveBundles.MergeSaferOf | app/autotuner/runtime_override.py:118-140 | the loop computes the merge |
| ActiveBundles.MergeIsSafer | app/autotuner/runtime_override.py:94-140 | a merge never makes a setting less safe than it is or than a comparable override asks for, takes one of the two values, leaves everything else alone, and yields "NaN" iff it was there before or came for a setting without a number |
| ActiveBundles.TunedStaysInBounds | app/autotuner/runtime_override.py:94-140 | a tuned setting is within its bounds or unchanged iff it is not a "NaN" for a setting without a number |
| ActiveBundles.MergedNumber | app/autotuner/runtime_override.py:94-140 | after a merge every setting that slows the trader has the larger and every cap the smaller of the current and the overriding number, either of which may be missing; a current "NaN" stays, and so does every other setting |
| ActiveBundles.NestingBreaksIff | app/autotuner/validator.py:234-255 | a merge breaks the nesting of two caps iff the outer one is overridden to less than the inner one is and less than the inner one is overridden to, if at all |
| ActiveBundles.NestingCanBreak | app/autotuner/runtime_override.py:118-140 | an accepted, active proposal that is nested over its own baseline and that the reader resolves does break the nesting of current settings |
| ActiveBundles.LimitAppliesIff | app/autotuner/runtime_override.py:94-115 | with an override of at least one there is a daily limit after the merge iff there was one before or no number at all |
| ActiveBundles.NaNIsHandedOut | app/autotuner/validator.py:155-184 | an approved proposal that sets a cap to "NaN" is accepted and resolved |
| SellWatch.BudgetKeepsReserves | app/core/sell_watch_budget.py:54-189 | a plan leaves the BUY reserves intact, the execution reserve too but for the single relaxed evaluation, and looks at something when both headrooms are positive |
| SellWatch.BudgetIsLargest | app/core/sell_watch_budget.py:54-189 | once one look is affordable the plan is the largest number that is, and that the strongest pressure leaves: one or two looks, a third or half of the holdings rounded up, or all |
| SellWatch.BudgetIsExhausted | app/core/sell_watch_budget.py:98-132 | and otherwise nothing, or one look at the cost of the execution reserve alone, with the reserve that stands in the way |
| SellWatch.BudgetIsMonotone | app/core/sell_watch_budget.py:54-189 | more remaining requests or quotes never mean fewer evaluations |
| SellWatch.PlanIsRotation | app/core/sell_watch_cursor.py:17-75 | the order is a rotation of all holdings that starts at the retry symbol when it is held |
| SellWatch.RotationVisitsAll | app/core/sell_watch_cursor.py:43-75 | it visits every holding exactly once |
| SellWatch.RetrySurvivesIff | app/core/sell_watch_cursor.py:78-91 | over all ticks, a held retry symbol is still the retry symbol afterwards iff the market was open without budget or a rate limit sends the next tick back to it; after a tick without a look the cursor points at it in any case |
| SellWatch.RetryIsHeld | app/core/sell_watch_cursor.py:17-91 | after a tick the retry symbol is one that is held, or none; one that is no longer held is forgotten |
| SellWatch.NextStart | app/core/sell_watch_cursor.py:43-91 | a tick that does not put risk first starts where the tick before it stopped, or at the holding a rate limit sends it back to |
| SellWatch.ReachedIff | app/runtime/cycle_phases/sell_watch_phase.py:376-483 | with the holdings in a fixed order, a run of ticks, rate limits included, looks at a holding iff it lies less far ahead of the first start than the ticks reach |
| SellWatch.EverybodyIsReachedIff | app/runtime/cycle_phases/sell_watch_phase.py:376-483 | a run of ticks reaches everybody iff it reaches all the way round |
| SellWatch.ReachedJoins | app/core/sell_watch_cursor.py:58-66 | a run reaches a holding iff one of its two parts does, so runs in which risk comes first now and then are covered part by part |
| SellWatch.ReachByLooks | app/runtime/cycle_phases/sell_order_phase.py:416-441 | the reach lies between what the ticks advance and what they look at, and is all they look at when no rate limit intervenes |
| SellWatch.NobodyStarves | app/runtime/cycle_phases/sell_watch_phase.py:478-483 | without rate limits and risk-first ticks as many looks as there are holdings reach them all |
| SellWatch.AffordableTicksReachAll | app/core/sell_watch_budget.py:54-189 | if each of as many ticks as there are holdings can afford a single look beside the reserves, their plans reach every holding |
| SellWatch.RateLimitsStarve | app/runtime/cycle_phases/sell_watch_phase.py:376-470 | when every look meets a rate limit, any number of ticks looks at the one holding the run started at |
| SellWatch.RiskFirstReaches | app/core/sell_watch_cursor.py:58-66 | over every run in which risk comes first and no rate limit intervenes, a holding is looked at iff its place is before the most holdings visited in a tick |

## Left out

- SellProtocol.RunNeverOversells: sells placed by hand are no steps of the protocol; a reload within the same day is meant.
- SellFlows.SellFlow.SubmitOrder: whether two requests of the budget are granted is part of the trial, and the texts of notifications, price capture and exit bookkeeping are not modelled.
- ReentryDecisions.WaitingNeverHurts: reading the exit reason from its text and scoring a setup as fresh are not modelled; cooldowns are whole minutes.
- Reconciliations.SyncReconciliationState: the exit bookkeeping written for positions that shrank by hand, and the summary text, are not modelled.
- SafetyStates.NormalizeState: fields that only display or cache something, and the coercion of malformed field types, are not modelled.
- BuyFlows.BuyFlow.RunBuyOrderFlow: writing to the order log is assumed not to raise; what the sell that makes room does to the state, the marks for untradable and re-entry-blocked symbols, and all displayed text are not modelled.
- TailReading.TailLinesBounded: decoding the bytes of a line, which may fail, is not modelled.
- TradeJournals.BuildTradeJournal: display names, holding minutes and the final display order are not modelled.
- OrderLogs.LogCache.ReadLogLinesCached: modification time and size are assumed to identify the contents of a file; a read error counts as part of them; lines that are JSON but not an object are not modelled.
- Autotuning.ValidateProposal: a time to live that is not an object is not modelled; the generator of a proposal enters as whether an automated one approves itself.
- ActiveBundles.ResolvedIsBounded: infinite numbers, which the bounds refuse, are not modelled.
- ActiveBundles.ProposalStore.ResolveActiveOverrides: the switches that turn the readers on, and proposal numbering, are not modelled.
- SellWatch.ReachedIff: the holdings are taken in a fixed order and have distinct codes; the priority scores that reorder them between ticks are not modelled.
- Throttling.Throttle.Acquire: one thread; sleeping never returns early; metrics are not modelled.
- HTTP, tokens, quotes, balances and order clients: the broker is an environment that answers as it likes.
- Settings, environment parsing and validation tables: their results are parameters.
- Risk guards and the math sizing overlay: arbitrary results.
- The session lock, JSON and YAML parsing, hashing, time zones and Korean texts: only codes and action names are kept.
- Rounding errors of floating point: amounts and times are reals, rounding is half to even, truncation is toward zero.
- Dashboards, formatters, symbol tags and score mappings: display code with only easy properties.
