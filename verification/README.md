# Throttle proxy admission core, modelled and verified

This project models the admission core of a rate-limiting proxy in Dafny 4.11 and proves what it
promises.  `dafny verify dfyconfig.toml` checks everything.

| files | what they model |
|---|---|
| `Drain`, `DrainSimulation`, `DrainPrediction`, `ServiceEstimates`, `Ordering` | the closed-form wait predictor, against greedy scheduling and an event simulation of the gated dispatcher |
| `Rotations`, `Aimd` | the per-client rotation and the live ceiling |
| `LimiterState`, `LimiterInvariants`, `LimiterTheorems`, `LimiterEvents`, `LimiterFairness`, `LimiterAdmission` | the limiter as a state machine whose steps are its locked sections, its invariants over every run, conservation, work conservation, what each event achieves and bounded bypass |
| `FairBearerLimiter` | the limiter as an object whose methods refine those steps |
| `Ledger`, `LedgerHistory` | one lane's reservation ledger, as an object and as functions, rolling-window safety over its whole history, and what every operation answers in terms of that history |
| `LedgerCodec`, `LedgerPool`, `LedgerDurability` | the snapshot format, the pool of lane objects with its file, and crash safety |
| `OwnerState`, `OwnerPermits`, `OwnerLedger`, `OwnerTheorems`, `OwnerHandoffs`, `OwnerConservation` | the persistence owner: interleaved loop and worker steps over the durable ledgers, what it delivers and what it takes back |
| `OwnerPools`, `PersistenceOwner` | the owner as an object: its worker on the ledger pool objects, its loop on fields |
| `Ingress` | the spill loop of the ingress, against an environment that changes everything between its steps |
| `Pacing`, `Burn` | the weekly allowance line, its inverse, the retry it advertises, and the plateau-aware burn |
| `FreeBudget`, `Balancer` | fixed-window request budgets and the token-work balancer |

Conventions.  Code that updates an object is a class whose methods state their whole new state as a
function of the old one (`View()`); the main results are lemmas about those functions, over every
run.  A clock reading, a random identity, an I/O outcome, a network answer or an advisory project
share is a parameter of the step that uses it.  Times and rates are real numbers.  A step is a
stretch of code that the original runs without interruption: a body under the limiter's lock, loop
code between two awaits, or one worker action.  Ledger identities are drawn unused.

Where the code differs from what its documentation says, the model follows the code:

- limiter.py:190-191 says total concurrency is bounded by ceiling plus reserve in every regime.
  After a shrink below the occupancy, priority arrivals still fill the reserve;
  `LimiterTheorems.ReserveBoundCanFail` is such a run from an empty limiter, and
  `LimiterTheorems.ReserveBoundIff` gives the exact condition.
- A pushback can raise the live cap: lowering the hard ceiling and restoring it leaves the cap below
  the AIMD floor (`Aimd.ShrinkDirection`, `Aimd.ShrinkCanRaise`).  As a pushback does not dispatch,
  that can leave a waiter parked beside a free slot (`LimiterTheorems.ShrinkStrandsIff`,
  `LimiterTheorems.ShrinkCanStrand`).
- An unconstrained request can be refused beside an open lane it has not tried: the first open lane of
  the chain may be one it has tried and a poll has reopened (`Ingresses.OpenLaneCanBeMissed`,
  `Ingresses.FindsUntriedIff`).
- The budget refusal's Retry-After can be up to a millisecond short (`FreeBudgets.RefusalExact`).

## Model

| member | source | states |
|---|---|---|
| Drain.GreedyStartInTime | src/anthropic_throttle_proxy/limiter.py:477-551 | Greedy earliest-free-server scheduling starts its (k+1)-th job by a time iff the count of starts by that time is at least k+1; the independent definition the closed form is measured against |
| Drain.StartsWithin | src/anthropic_throttle_proxy/limiter.py:477-501 | From any non-negative first guess of the quotient, the two correction loops reach the exact number of starts by the horizon |
| Drain.StartsExact | src/anthropic_throttle_proxy/limiter.py:477-501 | One slot starts exactly n+1 jobs when its n-th period ends by the horizon and the next does not |
| Drain.WaitForPosition | src/anthropic_throttle_proxy/limiter.py:504-532 | The bisection returns a time by which position ahead+1 has really started, later than the greedy start by at most (ahead+1)*service/2^96; never exactly when there is no slot |
| Drain.Bisect | src/anthropic_throttle_proxy/limiter.py:519-532 | Ninety-six halvings keep the greedy start inside the bracket |
| Drain.AdmissibleAheadExact | src/anthropic_throttle_proxy/limiter.py:535-551 | The integer bound admits precisely the positions that greedy scheduling starts by the horizon |
| DrainSimulation.SimulationIsGreedy | src/anthropic_throttle_proxy/limiter.py:554-622 | An event simulation of the gated dispatcher, with more holders than slots after a shrink included, starts request k exactly when greedy scheduling over its servers does |
| DrainPrediction.HoldersAreResiduals | src/anthropic_throttle_proxy/limiter.py:591-606 | When no slot is missing from the books, the predicted holders are exactly the residuals, clamped to one service, plus one full service for each holder without a lease |
| DrainPrediction.PredictionIsOfTheBooks | src/anthropic_throttle_proxy/limiter.py:591-622 | When no slot is missing from the books, the predicted start is the simulated one over the residuals as they are listed, clamped, plus one full service for each holder without a lease: sorting and padding change nothing |
| DrainPrediction.AdmissionIsSimulation | src/anthropic_throttle_proxy/limiter.py:591-622 | For every residual list, slot count and horizon: a position is admitted iff there are slots and the simulated dispatcher starts it at or before the horizon |
| DrainPrediction.GreedyStartIsSimulated | src/anthropic_throttle_proxy/limiter.py:591-622 | The start used by the wait is the simulated start itself |
| DrainPrediction.ComputeDrain | src/anthropic_throttle_proxy/limiter.py:554-667 | The whole estimate: verdicts, largest admissible depth, wait and retry hint agree with the simulated dispatcher for all inputs; the hint is the least whole number of seconds not below the wait, within its bounds; without a positive finite budget everything is admitted |
| ServiceEstimates.ServiceEstimateBounds | src/anthropic_throttle_proxy/limiter.py:427-475 | The residuals are, hold by hold, what is left of a typical service, so that age and residual add up to it, or one whole service for a hold that is not younger; the service time is typical unless a hold is older, and then that oldest hold's age; the source says which; no residual is zero or above one service |
| ServiceEstimates.TypicalIsQuantile | src/anthropic_throttle_proxy/limiter.py:408-456 | With three samples or more at least nine tenths of them are at or below the typical time and fewer than nine tenths below it, and it is one of them unless it is the least service time; with fewer it is the cold default |
| ServiceEstimates.ClampingIsIdentity | src/anthropic_throttle_proxy/limiter.py:427-475 | The clamping of residuals in the predictor never alters an estimate of its own |
| Rotations.AheadOfExact | src/anthropic_throttle_proxy/limiter.py:930-959 | The closed form for requests ahead equals the number of pops the rotation makes before that client's new arrival, for every rotation and client |
| Rotations.RankIsPops | src/anthropic_throttle_proxy/limiter.py:1394-1418 | The closed rank of any parked request is the number of pops before it |
| Rotations.NextWaiterSound | src/anthropic_throttle_proxy/limiter.py:1394-1418 | The next live waiter is returned: everybody the rotation would have served before it is cancelled; nothing live is dropped, the rotation stays sound, and nobody is found only when nobody waits |
| Rotations.EnqueueSound | src/anthropic_throttle_proxy/limiter.py:1290-1300 | Parking keeps the rotation duplicate-free, listing exactly the clients with queued requests |
| Rotations.RemoveFromSound | src/anthropic_throttle_proxy/limiter.py:1338-1355 | Removing one pending request keeps the rotation sound, the rest of that client's deque in order, and every other client's deque as it was |
| Rotations.MigratedSound | src/anthropic_throttle_proxy/limiter.py:1464-1480 | Closing the priority lane loses no request, keeps per-client order and keeps the rotation sound |
| Rotations.RotatedSound | src/anthropic_throttle_proxy/limiter.py:1376-1392 | Rotating the order for an under-share client changes neither queues nor listing |
| Rotations.DebtAfterNext | src/anthropic_throttle_proxy/limiter.py:1394-1418 | Each dispatch to another client is paid for in that client's debt towards a watched request |
| Rotations.DebtAfterMigration | src/anthropic_throttle_proxy/limiter.py:1464-1480 | Migration never raises another client's debt |
| Aimd.CapInRange | src/anthropic_throttle_proxy/limiter.py:305-331 | Over every run of pushbacks, successes, retry-afters and retunes, 1 <= live cap <= hard ceiling |
| Aimd.StartsAsGiven | src/anthropic_throttle_proxy/limiter.py:177-179 | A lane starts at the initial ceiling it is given, cut to the hard one and raised to the minimum |
| Aimd.ShrinkDirection | src/anthropic_throttle_proxy/limiter.py:851-875 | A pushback raises the cap iff the cap is below the floor, lowers it iff above, and never leaves it below |
| Aimd.PushbackSize | src/anthropic_throttle_proxy/limiter.py:851-875 | Above the floor the new cap is the largest whole number below the old one that is no more than the scaled one; the floor is taken only where that number would be no higher |
| Aimd.PushbackRecorded | src/anthropic_throttle_proxy/limiter.py:851-875 | A pushback starts the successes over and is remembered, last of the latest hundred |
| Aimd.MultiplicativeDecrease | src/anthropic_throttle_proxy/limiter.py:851-875 | After n pushbacks the cap is within what scaling it down n times leaves, or at the floor |
| Aimd.PushbacksReachFloor | src/anthropic_throttle_proxy/limiter.py:828-875 | From at or above the floor, cap - floor pushbacks reach it and further ones change nothing |
| Aimd.AdditiveIncrease | src/anthropic_throttle_proxy/limiter.py:1028-1144 | Above the floor every r-th counted success widens the lane by exactly one up to the hard ceiling, where r is the fast ramp with at least one and fewer than the threshold of recent shrinks, and the slow one otherwise |
| Aimd.GrowthIsEarned | src/anthropic_throttle_proxy/limiter.py:1052-1144 | A success widens the lane by one or not at all, and never in the cooldown of a pushback, in an open retry window or at the hard ceiling |
| Aimd.RetryAfterHonoured | src/anthropic_throttle_proxy/limiter.py:1146-1164 | Over every run, no success before the end of a requested retry window widens the lane |
| Aimd.FloorKept | src/anthropic_throttle_proxy/limiter.py:305-331 | Exactly which events can leave the cap below the floor: raising the hard ceiling without a live floor, or the configured minimum, past the cap |
| Aimd.RetuneEffect | src/anthropic_throttle_proxy/limiter.py:305-331 | A retune keeps the live cap, cut to the new hard ceiling and raised to the live floor it asked for |
| Aimd.ShrinkCanRaise | src/anthropic_throttle_proxy/limiter.py:305-331 | A concrete retune down and up after which a pushback raises the cap from 2 to 8 |
| Aimd.DwellRamp | src/anthropic_throttle_proxy/limiter.py:1052-1144 | On a monotone clock the floor-dwell ramp opens only after every recorded shrink left the storm window, and then one success widens by exactly one |
| Aimd.DwellOpens | src/anthropic_throttle_proxy/limiter.py:1052-1144 | A throttled lane that rests at its floor for twice the cooldown is widened by its next success |
| Aimd.ColdStartNeverDwells | src/anthropic_throttle_proxy/limiter.py:1052-1123 | A lane that was never throttled earns no dwell slot |
| LimiterInvariants.TryDispatchOk | src/anthropic_throttle_proxy/limiter.py:1420-1462 | One dispatch keeps all invariants, leaves no dispatchable waiter while its pool has room, and grants exactly min(waiters, room) in each pool |
| LimiterInvariants.ShareNeverChangesHowMany | src/anthropic_throttle_proxy/limiter.py:1376-1462 | Under-share ordering changes who goes, never how many |
| LimiterInvariants.DispatchKeepsCeiling | src/anthropic_throttle_proxy/limiter.py:1420-1462 | A dispatch leaves the live cap as it is, and the main pool is over it afterwards by no more than it was before |
| LimiterInvariants.CriticalInv | src/anthropic_throttle_proxy/limiter.py:1243-1364 | Every locked section (arrival, wake, cancellation, cleanup, release, shrink, grow, retune) keeps queue integrity, slot books and the dispatch record |
| LimiterInvariants.ReachableInv | src/anthropic_throttle_proxy/limiter.py:1243-1480 | The same invariants over every run of steps |
| LimiterTheorems.SlotConservation | src/anthropic_throttle_proxy/limiter.py:877-924 | Dispatches so far = slots in flight + slots returned |
| LimiterTheorems.InflightIsHolds | src/anthropic_throttle_proxy/limiter.py:877-912 | Over every run the two counters are exactly the numbers of leases outstanding, in all and in the priority pool |
| LimiterTheorems.ReturnedForGood | src/anthropic_throttle_proxy/limiter.py:1305-1364 | A slot that came back stays back: it is returned once, granted-then-cancelled included |
| LimiterTheorems.DispatchOnlyGrants | src/anthropic_throttle_proxy/limiter.py:1420-1462 | A dispatch grants pending waiters slots under leases that did not exist before and does nothing else to anybody: every slot held stays held since the same moment, and nothing is sampled |
| LimiterTheorems.StepBusy | src/anthropic_throttle_proxy/limiter.py:1420-1462 | Any step fills the main pool up to its ceiling and no further, apart from what lowering the reserve adds |
| LimiterTheorems.OccupancyBound | src/anthropic_throttle_proxy/limiter.py:182-193 | While neither knob is lowered the overshoot never grows, so runs inside the bound keep total concurrency within ceiling plus reserve |
| LimiterTheorems.ReserveBoundIff | src/anthropic_throttle_proxy/limiter.py:182-193 | The documented bound "in every regime" fails: it holds under further arrivals iff the main pool is not over its ceiling |
| LimiterTheorems.ReserveBoundCanFail | src/anthropic_throttle_proxy/limiter.py:182-193 | A run from an empty limiter, of arrivals and one pushback, with three requests in flight under a ceiling below two and a reserve of one |
| LimiterTheorems.ShrinkStrandsIff | src/anthropic_throttle_proxy/limiter.py:851-875 | Exactly when a pushback leaves a dispatchable waiter parked: the cap was below its floor, the floor exceeds occupancy and somebody waits |
| LimiterTheorems.NobodyStranded | src/anthropic_throttle_proxy/limiter.py:342-361 | Over every run whose pushbacks start at or above the floor, once the kick of a reserve change has run nobody is parked while there is room |
| LimiterTheorems.ShrinkCanStrand | src/anthropic_throttle_proxy/limiter.py:305-331 | A reachable run that does strand a waiter |
| LimiterEvents.ReleaseReturns | src/anthropic_throttle_proxy/limiter.py:1357-1364 | A release brings back exactly the slot its caller held: its lease is gone, one more slot is returned, how long it was held joins the last 64 samples of the lane that granted it and of no other, and as many waiters are granted slots at once as wait and as the pools then have room for |
| LimiterEvents.CleanupReturns | src/anthropic_throttle_proxy/limiter.py:1305-1325 | A caller cancelled after it was granted a slot gives that slot back and hands the place on in the same way, and nothing is sampled |
| LimiterEvents.CleanupWithdraws | src/anthropic_throttle_proxy/limiter.py:1305-1325 | A caller cancelled while it waited is out of every deque afterwards, everybody else stays parked, and no slot, sample or dispatch is touched |
| LimiterEvents.WakeThenRelease | src/anthropic_throttle_proxy/limiter.py:1294-1303 | A granted caller that wakes and later releases has given back the very slot it was granted, and its place is handed on |
| LimiterEvents.CancelAfterGrant | src/anthropic_throttle_proxy/limiter.py:1296-1325 | Cancelled between its grant and its waking, a caller leaves nothing behind once its cleanup has run: the slot is back, unsampled, and handed on |
| LimiterEvents.CancelBeforeGrant | src/anthropic_throttle_proxy/limiter.py:1296-1325 | Cancelled before any grant, it is out of both lanes once its cleanup has run, and nobody else moved |
| LimiterEvents.ArrivalServed | src/anthropic_throttle_proxy/limiter.py:1243-1294 | An arriving request is one more to serve in the lane it asked for, the main one while the reserve is closed; the dispatch takes as many from each lane as wait and as fit, and grants the newcomer a slot or leaves it waiting |
| LimiterEvents.ReserveTakesEffect | src/anthropic_throttle_proxy/limiter.py:342-361 | Once the kick of a reserve change has run, each pool is filled as the new size allows, and a closed reserve has its waiters served from the main pool |
| LimiterEvents.ProjectsRemembered | src/anthropic_throttle_proxy/limiter.py:1366-1374 | A queued newcomer's project is noted, and no client that still waits is forgotten |
| LimiterEvents.UnderShareGoesFirst | src/anthropic_throttle_proxy/limiter.py:1376-1392 | While the ordering is on, the next main slot goes to the first client of the rotation that is not over its share, if the head of its queue still waits |
| LimiterEvents.RotationDecides | src/anthropic_throttle_proxy/limiter.py:1376-1392 | With the ordering off, or everybody over their share, the rotation alone decides |
| LimiterAdmission.FreePlaceAdmits | src/anthropic_throttle_proxy/limiter.py:961-1004 | A request that finds its lane empty and a place free is never refused: the simulated dispatcher starts it at once |
| LimiterAdmission.LaneHoldsExact | src/anthropic_throttle_proxy/limiter.py:926-928 | The stamps the estimate works on are those of the lane's holds, one for each, in the order of their leases |
| LimiterAdmission.FirstWaiterIff | src/anthropic_throttle_proxy/limiter.py:1214-1241 | Exactly the request that finds the only slot of the main pool taken and nobody waiting for it is let in whatever its estimate, and it is served next |
| LimiterFairness.BoundedBypass | src/anthropic_throttle_proxy/limiter.py:1394-1418 | Behind own requests of the same client, every other client gets at most own+1 dispatches from the normal queue first, over every run with deferral inactive |
| LimiterFairness.DispatchWatched | src/anthropic_throttle_proxy/limiter.py:1420-1480 | The bypass account survives one whole dispatch, lane migration included |
| FairBearerLimiters.FairBearerLimiter.constructor | src/anthropic_throttle_proxy/limiter.py:715-787 | A new limiter is the initial state at its clamped live cap |
| FairBearerLimiters.FairBearerLimiter.Shrink | src/anthropic_throttle_proxy/limiter.py:851-875 | Refines the pushback step; nothing is dispatched |
| FairBearerLimiters.FairBearerLimiter.RecentShrinks | src/anthropic_throttle_proxy/limiter.py:1006-1026 | Counts exactly the shrinks inside the storm window |
| FairBearerLimiters.FairBearerLimiter.MayGrow | src/anthropic_throttle_proxy/limiter.py:1052-1123 | True iff the growth gate of the specification is open |
| FairBearerLimiters.FairBearerLimiter.Grow | src/anthropic_throttle_proxy/limiter.py:1125-1144 | Refines the success step, dispatching when the cap rose |
| FairBearerLimiters.FairBearerLimiter.NoteRetryAfter | src/anthropic_throttle_proxy/limiter.py:1146-1164 | Refines the retry-after step |
| FairBearerLimiters.FairBearerLimiter.RetuneHardMax | src/anthropic_throttle_proxy/limiter.py:305-331 | Refines the retune step with its dispatch |
| FairBearerLimiters.FairBearerLimiter.SetReserveSlots | src/anthropic_throttle_proxy/limiter.py:1420-1436 | Refines the reserve knob step; nothing else changes |
| FairBearerLimiters.FairBearerLimiter.KickDispatch | src/anthropic_throttle_proxy/limiter.py:342-361 | Refines the kick: one dispatch |
| FairBearerLimiters.FairBearerLimiter.NoteDispatch | src/anthropic_throttle_proxy/limiter.py:877-889 | Books one slot under a new lease |
| FairBearerLimiters.FairBearerLimiter.NoteCompletion | src/anthropic_throttle_proxy/limiter.py:891-924 | Gives one lease's slot back in the lane it was taken from, sampling its service time when asked |
| FairBearerLimiters.FairBearerLimiter.NextWaiter | src/anthropic_throttle_proxy/limiter.py:1394-1418 | Returns the first live waiter of the rotation and rotates its client to the back |
| FairBearerLimiters.FairBearerLimiter.PreferUnderShare | src/anthropic_throttle_proxy/limiter.py:1376-1392 | Rotates the order to the first client that need not yield |
| FairBearerLimiters.FairBearerLimiter.MigratePriorityToNormal | src/anthropic_throttle_proxy/limiter.py:1464-1480 | Moves every priority request to the normal queues |
| FairBearerLimiters.FairBearerLimiter.GrantTo | src/anthropic_throttle_proxy/limiter.py:1438-1462 | Grants one waiter its slot |
| FairBearerLimiters.FairBearerLimiter.TryDispatch | src/anthropic_throttle_proxy/limiter.py:1420-1462 | Refines the dispatch function: priority loop, then main loop |
| FairBearerLimiters.FairBearerLimiter.MainLoop | src/anthropic_throttle_proxy/limiter.py:1448-1462 | Grants main-pool turns while there is room |
| FairBearerLimiters.FairBearerLimiter.AheadOf | src/anthropic_throttle_proxy/limiter.py:930-959 | The three counting loops compute the closed form |
| FairBearerLimiters.FairBearerLimiter.QueuedTotal | src/anthropic_throttle_proxy/limiter.py:1482-1492 | Counts every parked request of a lane |
| FairBearerLimiters.FairBearerLimiter.LaneHolds | src/anthropic_throttle_proxy/limiter.py:926-928 | The start stamps of a lane's leases, in lease order |
| FairBearerLimiters.FairBearerLimiter.DrainEstimate | src/anthropic_throttle_proxy/limiter.py:961-1004 | The estimate of a lane is faithful to the simulated dispatcher for its real holds and rank |
| FairBearerLimiters.FairBearerLimiter.CheckQueueAdmission | src/anthropic_throttle_proxy/limiter.py:1214-1241 | Refuses iff the simulated start of this arrival is too late with evidence, and it is not the permitted first waiter |
| FairBearerLimiters.FairBearerLimiter.AcquireLease | src/anthropic_throttle_proxy/limiter.py:1243-1303 | Refused with nothing changed under that same condition, else parked and dispatched in one step |
| FairBearerLimiters.FairBearerLimiter.ParkFuture | src/anthropic_throttle_proxy/limiter.py:1277-1300 | Parks a waiter in its lane and notes its project |
| FairBearerLimiters.FairBearerLimiter.ArrivalRank | src/anthropic_throttle_proxy/limiter.py:930-959 | The estimate's position is the rank the arrival would really have |
| FairBearerLimiters.FairBearerLimiter.RemoveFrom | src/anthropic_throttle_proxy/limiter.py:1338-1355 | Removes the pending request and its empty client, or reports that it is not there |
| FairBearerLimiters.FairBearerLimiter.RemovePending | src/anthropic_throttle_proxy/limiter.py:1327-1336 | Tries the priority lane, then the main one |
| FairBearerLimiters.FairBearerLimiter.ReturnSlot | src/anthropic_throttle_proxy/limiter.py:891-924 | Gives a granted waiter's slot back |
| FairBearerLimiters.FairBearerLimiter.CancelCleanup | src/anthropic_throttle_proxy/limiter.py:1305-1325 | Refines the cleanup: a pending request is withdrawn, or the slot it was granted comes back unsampled and its place is handed on |
| FairBearerLimiters.FairBearerLimiter.Release | src/anthropic_throttle_proxy/limiter.py:1357-1364 | Refines the release step; on a limiter in order the slot held is back, its duration is sampled in its lane alone, and the places are handed on to as many as wait and fit |
| Ledger.PruneExact | src/anthropic_throttle_proxy/ledger.py:138-139 | Pruning keeps exactly the entries whose window is open |
| Ledger.FindExact | src/anthropic_throttle_proxy/ledger.py:157-160 | A sequence number finds its own entry |
| Ledger.CancelTwice | src/anthropic_throttle_proxy/ledger.py:197-210 | A second cancellation is an error while the window is open, never a second refund, and a no-op afterwards |
| Ledger.SettleTwice | src/anthropic_throttle_proxy/ledger.py:185-195 | A repeated settlement refunds nothing and changes nothing but pruning |
| Ledger.DebitMoves | src/anthropic_throttle_proxy/ledger.py:162-183 | A debit adds exactly its reservation and one request to what is left of the window, within both budgets |
| Ledger.SettleMoves | src/anthropic_throttle_proxy/ledger.py:185-195 | A settlement's refund is exactly what the token window gives back; overspend is charged and refunds nothing |
| Ledger.CancelMoves | src/anthropic_throttle_proxy/ledger.py:197-210 | A cancellation gives back the whole reservation and its request; an expired one nothing |
| Ledger.OthersUntouched | src/anthropic_throttle_proxy/ledger.py:185-210 | Settling or cancelling a lease leaves every live entry of another number in the ledger exactly as it was |
| Ledger.DebitOk | src/anthropic_throttle_proxy/ledger.py:162-183 | A debit keeps entries distinctly numbered below the high-water mark |
| Ledger.LaneLedger.PruneAt | src/anthropic_throttle_proxy/ledger.py:138-139 | The filtering loop computes the pruned entries |
| Ledger.LaneLedger.CheckAndDebit | src/anthropic_throttle_proxy/ledger.py:162-183 | Refines the debit function, refusals and clock errors included; `LedgerHistory.AdmittedIff` says when it admits |
| Ledger.LaneLedger.EntryOf | src/anthropic_throttle_proxy/ledger.py:141-160 | Refines the lookup: foreign lease, bad clock, expired, found or not outstanding |
| Ledger.LaneLedger.SettleLease | src/anthropic_throttle_proxy/ledger.py:185-195 | Refines the settlement function |
| Ledger.LaneLedger.CancelUnsentLease | src/anthropic_throttle_proxy/ledger.py:197-210 | Refines the cancellation function |
| Ledger.LaneLedger.RetainLease | src/anthropic_throttle_proxy/ledger.py:212-214 | Validates the lease and changes no number |
| Ledger.LaneLedger.Snapshot | src/anthropic_throttle_proxy/ledger.py:216-221 | Counts the requests and tokens of the live entries, forgetting the expired ones; refuses a bad clock |
| LedgerHistory.StepAudit | src/anthropic_throttle_proxy/ledger.py:162-214 | Every ledger operation keeps the ledger equal to the live part of its full history |
| LedgerHistory.RollingWindowSafety | src/anthropic_throttle_proxy/ledger.py:162-210 | Over every run on a non-decreasing clock, in every half-open 60 s window the non-cancelled leases ever admitted number at most maxRequests and are charged at most maxTokens plus what leases of that window were settled at beyond their reservation |
| LedgerHistory.AdmittedIff | src/anthropic_throttle_proxy/ledger.py:162-183 | After every run a debit is admitted if and only if the non-cancelled leases of the last minute number fewer than the request budget and their current charges leave room for its tokens; its lease is the next of this ledger, for these amounts at this time, and nothing else is recorded |
| LedgerHistory.SettledIff | src/anthropic_throttle_proxy/ledger.py:185-195 | After every run a settlement changes the charge of the lease it names, and refunds the rest of its reservation, if and only if that lease is less than a minute old, not cancelled and not settled; its answer in every other case |
| LedgerHistory.CancelledIff | src/anthropic_throttle_proxy/ledger.py:197-210 | A cancellation gives the whole reservation back under the same condition; its answer in every other case |
| LedgerHistory.RetainedIff | src/anthropic_throttle_proxy/ledger.py:212-214 | Retaining a lease changes no charge and is refused only if the lease was cancelled within the minute |
| LedgerHistory.CountersAreRecent | src/anthropic_throttle_proxy/ledger.py:216-221 | A snapshot's counters are those of the non-cancelled leases of the last minute |
| LedgerHistory.StrangersRefused | src/anthropic_throttle_proxy/ledger.py:141-160 | A lease of another ledger, or of a number not issued, is refused by every operation and changes nothing |
| LedgerCodec.RoundTrip | src/anthropic_throttle_proxy/ledger.py:224-267 | Every well-formed pool is restored exactly as it was saved |
| LedgerCodec.DecodeSound | src/anthropic_throttle_proxy/ledger.py:357-377 | Whatever tree is read, an accepted pool is well formed and survives saving and loading unchanged |
| LedgerPools.ParseEntryList | src/anthropic_throttle_proxy/ledger.py:254-259 | The entry loop with its duplicate set computes the parser function |
| LedgerPools.ParseLaneObject | src/anthropic_throttle_proxy/ledger.py:241-267 | A lane object is built iff the tree parses |
| LedgerPools.LedgerPool.LedgerFor | src/anthropic_throttle_proxy/ledger.py:288-295 | Creates a lane object only when absent and only for a valid key; other lanes are untouched |
| LedgerPools.LedgerPool.Save | src/anthropic_throttle_proxy/ledger.py:312-355 | The file becomes the snapshot or stays as it was; live ledgers are untouched |
| LedgerPools.LedgerPool.DebitInMemory | src/anthropic_throttle_proxy/ledger.py:307-308 | Refines the provisional debit of one lane object |
| LedgerPools.LedgerPool.CheckAndDebit | src/anthropic_throttle_proxy/ledger.py:297-310 | Refines the persisted admission: a lease is returned only with the debit saved |
| LedgerPools.LedgerPool.BuildLanes | src/anthropic_throttle_proxy/ledger.py:367-375 | The lane loop builds fresh objects for exactly the lanes the parser function accepts, or refuses |
| LedgerPools.LedgerPool.Load | src/anthropic_throttle_proxy/ledger.py:357-377 | Replaces the live lanes iff the whole file decodes; otherwise nothing changes |
| LedgerDurability.NothingAcknowledgedIsLost | src/anthropic_throttle_proxy/ledger.py:297-355 | After any history of saves, half saves, losses and restarts, a new process carries every acknowledged, unexpired, uncancelled lease at its full reservation, or, if it was settled, at an amount reported for this very lease |
| LedgerDurability.NeverSettledInFull | src/anthropic_throttle_proxy/ledger.py:297-355 | A lease nobody asked to settle is carried unsettled, at exactly its input and output reservation |
| LedgerDurability.SavedPoolsAreRestored | src/anthropic_throttle_proxy/ledger.py:312-377 | Every reachable pool is accepted by the loader and restored as it was |
| LedgerDurability.StaleLeasesAreHarmless | src/anthropic_throttle_proxy/ledger.py:141-160 | No two acknowledged leases share a ledger and number across crashes, and settling or cancelling a stale one leaves the newer one's live entry untouched: same time, tokens and settlement |
| LedgerDurability.ReachableInv | src/anthropic_throttle_proxy/ledger.py:288-377 | The crash invariant over every run |
| OwnerTheorems.PermitsAreExact | src/anthropic_throttle_proxy/prospective_admission.py:144-154 | Over every interleaving the pending counter is the number of operations that have not released, within its bound, and the idle event says when it is zero |
| OwnerTheorems.ReleasedForGood | src/anthropic_throttle_proxy/prospective_admission.py:231-254 | An operation that gave its permit back never changes again, so it never gives one back twice |
| OwnerTheorems.NoneStuck | src/anthropic_throttle_proxy/prospective_admission.py:166-181 | Every operation holding a permit is in its caller's hands, awaits a job the worker has, or has an answer the loop can act on at once |
| OwnerTheorems.DrainIsFinal | src/anthropic_throttle_proxy/prospective_admission.py:301-317 | After the drain no permit is held, no job is queued or running, and no later event changes anything |
| OwnerTheorems.FaultBarrier | src/anthropic_throttle_proxy/prospective_admission.py:156-164 | After the first fault no queued action runs and nothing is handed off or admitted, whatever happens |
| OwnerTheorems.HandoffIsDurable | src/anthropic_throttle_proxy/prospective_admission.py:70-80 | At a successful handoff, over every interleaving, the debit stands in memory and in the file, unsettled and in full, the scope's ledger not having read a later time than the handoff |
| OwnerTheorems.SentIsNeverCancelled | src/anthropic_throttle_proxy/prospective_admission.py:223-254 | No later step cancels a handed-off lease; its whole reservation stands, unsettled, while its window is open |
| OwnerHandoffs.NoneTakenBack | src/anthropic_throttle_proxy/prospective_admission.py:231-288 | Over every run a reservation whose caller neither gave the wait up nor left with its ticket unsent is never taken back: once granted it waits for its caller, is in its caller's hands or was sent, and no cancellation of it is queued or running |
| OwnerHandoffs.TicketIsGood | src/anthropic_throttle_proxy/prospective_admission.py:70-80 | Once its debit is granted a caller has the ticket on waking, with its permit, and keeps it whatever happens to others; the handoff then succeeds if and only if the owner is ready, open and not faulted and the debit less than a minute old, and hands over that very lease |
| OwnerHandoffs.ResumeRefused | src/anthropic_throttle_proxy/prospective_admission.py:271-278 | A refused debit returns its permit at once; a failed one goes to rollback with it |
| OwnerHandoffs.CallsAdmitted | src/anthropic_throttle_proxy/prospective_admission.py:137-174 | A start, reserve or snapshot is admitted exactly while the owner is open, not faulted and short of its bound, and for the last two ready and the scope known; an admitted call has its one job queued and a refused one changes nothing |
| OwnerHandoffs.DebitAnswered | src/anthropic_throttle_proxy/prospective_admission.py:223-224 | The worker refuses a debit exactly if its lane's live entries leave no room, grants it exactly if they do and the save works, and a granted one is in the file |
| OwnerHandoffs.ServesReservation | src/anthropic_throttle_proxy/prospective_admission.py:257-288 | An owner at rest whose lane has room serves a reservation: call, saved debit, waking and handoff within a minute deliver the next lease of the lane, saved, and the permit is back |
| OwnerHandoffs.StartComesUp | src/anthropic_throttle_proxy/prospective_admission.py:208-217 | An owner whose files can all be loaded is at rest, ready and as its files have it after its start |
| OwnerHandoffs.ReturnsUnsent | src/anthropic_throttle_proxy/prospective_admission.py:226-255 | Leaving with the ticket unsent gives everything back: the lease is cancelled in its lane, the cancellation saved, and the permit returned |
| OwnerHandoffs.DrainsIff | src/anthropic_throttle_proxy/prospective_admission.py:301-314 | A closing owner admits nothing, and its drain completes exactly when every operation has returned its permit |
| OwnerHandoffs.SuccessorLoads | src/anthropic_throttle_proxy/prospective_admission.py:183-206 | At any moment a successor can take a loaded owner's files over: all of them can be loaded, a scope without one permitting a cold start, and each scope has what its file says |
| OwnerHandoffs.CountAnswered | src/anthropic_throttle_proxy/prospective_admission.py:290-299 | A snapshot of a scope is answered at any valid time; what has expired is forgotten and nothing else changes |
| OwnerConservation.DrainedBalance | src/anthropic_throttle_proxy/prospective_admission.py:223-288 | In a fault-free run, once drained, the live entries, in memory and in the file, are exactly the restored and the handed-off ones |
| OwnerConservation.RollbackFails | src/anthropic_throttle_proxy/prospective_admission.py:226-240 | In every fault-free run, a rollback in the worker's hands on a clock that has not gone back makes a fault iff its save fails |
| OwnerLedger.ReachableInv | src/anthropic_throttle_proxy/prospective_admission.py:137-317 | All owner invariants over every interleaving |
| OwnerPermits.LoopShape | src/anthropic_throttle_proxy/prospective_admission.py:144-288 | Every loop step keeps the books, and every operation that awaits the worker has exactly one job there |
| OwnerPermits.FinishShape | src/anthropic_throttle_proxy/prospective_admission.py:156-174 | So does every worker completion |
| OwnerPools.LoadScope | src/anthropic_throttle_proxy/prospective_admission.py:193-206 | A pool object from one scope's file, iff the file decodes, or is missing with permission, and holds no other scope |
| OwnerPools.LoadPools | src/anthropic_throttle_proxy/prospective_admission.py:183-206 | The loop over the scopes ends with one pool object for each, apart from one another, iff every file can be loaded |
| OwnerPools.DebitOn | src/anthropic_throttle_proxy/prospective_admission.py:223-224 | A debit through the pool object's persisted admission gives the reply, memory and file of the step function |
| OwnerPools.CancelOn | src/anthropic_throttle_proxy/prospective_admission.py:226-229 | Cancelling in the lane object and then saving the pool gives the reply, memory and file of the step function; a refused cancellation saves nothing |
| OwnerPools.CountOn | src/anthropic_throttle_proxy/prospective_admission.py:290-291 | Reading a lane object's counters prunes it and changes nothing else |
| OwnerPools.OnPools | src/anthropic_throttle_proxy/prospective_admission.py:223-229 | An action on one scope's objects keeps every scope served by a pool and lane of its own |
| PersistenceOwners.JobsInOrder | src/anthropic_throttle_proxy/prospective_admission.py:156-206 | In every run from any files the load is performed before anything else and only once, and every job belongs to an operation: what the worker's methods require always holds |
| PersistenceOwners.PersistenceOwner.constructor | src/anthropic_throttle_proxy/prospective_admission.py:92-122 | A new owner is the initial state over the files it is given, of which it has read nothing |
| PersistenceOwners.PersistenceOwner.Check | src/anthropic_throttle_proxy/prospective_admission.py:137-142 | Faulted, not open or available, in that order |
| PersistenceOwners.PersistenceOwner.Claim | src/anthropic_throttle_proxy/prospective_admission.py:144-149 | Takes a permit iff available and below the bound; a refusal changes nothing |
| PersistenceOwners.PersistenceOwner.GiveBack | src/anthropic_throttle_proxy/prospective_admission.py:151-154 | Returns one permit, setting idle at zero |
| PersistenceOwners.PersistenceOwner.Enqueue | src/anthropic_throttle_proxy/prospective_admission.py:166-174 | Queues a job, or faults and fails its operation |
| PersistenceOwners.PersistenceOwner.StartLoading | src/anthropic_throttle_proxy/prospective_admission.py:208-214 | Refines the start call: one load at most |
| PersistenceOwners.PersistenceOwner.StartReturned | src/anthropic_throttle_proxy/prospective_admission.py:215-217 | Ready only after a successful load while still open |
| PersistenceOwners.PersistenceOwner.BeginReserve | src/anthropic_throttle_proxy/prospective_admission.py:266-270 | Admits iff the scope is known, tokens are positive and a permit is free; then one debit is queued |
| PersistenceOwners.PersistenceOwner.ResumeReserve | src/anthropic_throttle_proxy/prospective_admission.py:271-280 | Refines the end of the wait: a granted reserve becomes its caller's ticket with its permit, a refused one returns it, a failed one is rolled back (`OwnerHandoffs.TicketIsGood`, `OwnerHandoffs.ResumeRefused`) |
| PersistenceOwners.PersistenceOwner.AbandonReserve | src/anthropic_throttle_proxy/prospective_admission.py:273-275 | A given-up wait hands the operation to a rollback task, keeping the permit |
| PersistenceOwners.PersistenceOwner.HandOff | src/anthropic_throttle_proxy/prospective_admission.py:70-80 | Succeeds iff open, active, unsent and inside the window; returns that lease and releases once |
| PersistenceOwners.PersistenceOwner.ExitReserve | src/anthropic_throttle_proxy/prospective_admission.py:252-254 | An unsent ticket goes to rollback |
| PersistenceOwners.PersistenceOwner.RollBackUnsent | src/anthropic_throttle_proxy/prospective_admission.py:231-240 | Cancels an acknowledged lease on the worker, else releases |
| PersistenceOwners.PersistenceOwner.RollbackDone | src/anthropic_throttle_proxy/prospective_admission.py:238-240 | Releases once the cancellation has its answer |
| PersistenceOwners.PersistenceOwner.BeginSnapshot | src/anthropic_throttle_proxy/prospective_admission.py:293-299 | Admits iff the scope is known and a permit is free |
| PersistenceOwners.PersistenceOwner.OperationFinished | src/anthropic_throttle_proxy/prospective_admission.py:179-181 | The completion callback releases once |
| PersistenceOwners.PersistenceOwner.BeginClose | src/anthropic_throttle_proxy/prospective_admission.py:305-314 | Stops admission |
| PersistenceOwners.PersistenceOwner.FinishDrain | src/anthropic_throttle_proxy/prospective_admission.py:301-303 | Completes only when closing and idle |
| PersistenceOwners.PersistenceOwner.TakeJob | src/anthropic_throttle_proxy/prospective_admission.py:156-164 | The fault is checked before the action |
| PersistenceOwners.PersistenceOwner.PerformJob | src/anthropic_throttle_proxy/prospective_admission.py:183-206 | Loads all scopes, or runs one action on the pool object of its scope, and leaves every other scope's pool alone |
| PersistenceOwners.PersistenceOwner.FinishJob | src/anthropic_throttle_proxy/prospective_admission.py:156-164 | Refines a worker completion on the pool objects; a failure is a fault |
| Ingresses.Ingress.Forward | src/anthropic_throttle_proxy/ingress.py:1458-1525 | Ends for every sequence of health verdicts and answers, after at most |lanes| + retries attempts, each sound; the client is told what the last lane answered, after lanes that were busy (a stamped 503, or for generate and code a 429 that is no entitlement refusal) or, for a constrained request, silent; it is told that capacity is short only unconstrained, and with no open lane before one it has been to |
| Ingresses.Ingress.Pass | src/anthropic_throttle_proxy/ingress.py:1503-1525 | One pass of the loop: a sound attempt whose outcome decides what the client is told, or no lane is left; without an answer a lane or a retry is used up |
| Ingresses.Ingress.NextLane | src/anthropic_throttle_proxy/ingress.py:1069-1115 | Exactly one of lane and refusal, and each refusal has its reason; a chosen lane is sound; a policy refusal means every configured lane of the chain was tried, a capacity refusal that the first open lane is tried or there is none |
| Ingresses.Ingress.SelectConstrained | src/anthropic_throttle_proxy/ingress.py:1002-1026 | Only a lane still in the chain is chosen, only on its own probe, made in this selection, which read it as eligible, and only once every configured lane before it is used up; none is chosen only when all are |
| Ingresses.Ingress.SelectOnce | src/anthropic_throttle_proxy/ingress.py:1048-1066 | A usable pin decides once; otherwise the ranking or else the first open lane of the chain, which becomes the pin; always open and untried, inside the chain under a registry, Anthropic for generate with overflow off |
| Ingresses.Ingress.PinnedChoice | src/anthropic_throttle_proxy/ingress.py:1029-1045 | A pin is honoured iff untried, open, registered and allowed its role |
| Ingresses.Ingress.ActivePick | src/anthropic_throttle_proxy/ingress.py:248-281 | An open untried lane of the chain, or none |
| Ingresses.Ingress.ProbeLane | src/anthropic_throttle_proxy/ingress.py:812-930 | The cache holds this probe's own verdict: what it read, or closed when it failed |
| Ingresses.Ingress.AttemptLane | src/anthropic_throttle_proxy/ingress.py:1409-1455 | A request that may spill is never answered with a busy lane's own answer, and any other answer is relayed as it is; an attempt without an answer uses its lane up, or one retry of a generate request that met a busy lane |
| Ingresses.Ingress.SpillOrRequeue | src/anthropic_throttle_proxy/ingress.py:1320-1350 | Which lanes it marks, when it spills, when it requeues, that it answers only with neither left, and that a constrained bare 429 marks nothing |
| Ingresses.Ingress.SendUpstream | src/anthropic_throttle_proxy/ingress.py:1150-1215 | An unreachable lane is out for a constrained request and terminal for any other |
| Ingresses.Ingress.SetLaneState | src/anthropic_throttle_proxy/ingress.py:716-732 | Changes one lane's openness and keeps its credential class |
| Ingresses.FirstOpen | src/anthropic_throttle_proxy/ingress.py:323-324 | The first open lane of the chain, none iff all are closed |
| Ingresses.KeptInOrder | src/anthropic_throttle_proxy/ingress.py:316-320 | A registry takes the lanes it does not list out of a chain and leaves the others in their order |
| Ingresses.Ingress.Chain | src/anthropic_throttle_proxy/ingress.py:316-320 | A lane is in a role's chain exactly if it is configured for the role (or for generate, if the role has no chain of its own), listed by the registry if there is one, and Anthropic for generate with overflow off |
| Ingresses.FindsUntriedIff | src/anthropic_throttle_proxy/ingress.py:1060-1066 | An unconstrained request finds an open, untried lane iff one stands before every tried lane that has been reopened |
| Ingresses.OpenLaneCanBeMissed | src/anthropic_throttle_proxy/ingress.py:1290-1291 | A concrete chain whose first lane was tried and reopened, so that a later open, untried one is not found |
| Pacing.CaughtUp | src/anthropic_throttle_proxy/usage_allocator.py:234-246 | From the advertised catch-up on, an account whose usage stays put is not ahead at any instant |
| Pacing.NotSooner | src/anthropic_throttle_proxy/usage_allocator.py:234-246 | Before it, an account above the line now stays above it at every instant, unless within the one-second minimum |
| Pacing.RoundedSign | src/anthropic_throttle_proxy/usage_allocator.py:158-196 | Six-decimal rounding reports ahead iff the excess is over half a millionth, so never at or below the line |
| Pacing.AheadIff | src/anthropic_throttle_proxy/usage_allocator.py:158-196 | An account is ahead exactly if its window is open and its usage exceeds the line by more than half a millionth; nothing is said without its figures |
| Pacing.RemainingProjects | src/anthropic_throttle_proxy/usage_allocator.py:206-231 | Under the remaining law an account is ahead exactly if burning on at the measured rate until the reset would use more than what is left, margin included |
| Pacing.RemainingUnknown | src/anthropic_throttle_proxy/usage_allocator.py:206-231 | Without all its figures, or once its window is over, the remaining law says nothing of an account |
| Pacing.CatchupRetry | src/anthropic_throttle_proxy/usage_allocator.py:286-310 | The loop returns the least wait, rounded up and capped |
| Pacing.RetryIsSoonest | src/anthropic_throttle_proxy/usage_allocator.py:286-310 | The advertised retry is the least whole number of seconds, one at least, by which the soonest account has caught up, unless the cap is less |
| Pacing.FreshFiguresCount | src/anthropic_throttle_proxy/usage_allocator.py:286-310 | The least wait is that of the accounts with the usages and resets reported since |
| Pacing.DecideIsSafe | src/anthropic_throttle_proxy/usage_allocator.py:249-283 | Filters exactly when some accounts are ahead and some are not, to those that are not; defers only ordinary traffic with everybody ahead |
| Pacing.DeferralIsHonest | src/anthropic_throttle_proxy/usage_allocator.py:249-310 | Whoever waits an uncapped retry and asks again with the same usage is routed, then and ever after |
| Burn.BurnPerH | src/anthropic_throttle_proxy/usage_allocator.py:113-151 | The backward walks and the base search compute the specified burn |
| Burn.WalkBack | src/anthropic_throttle_proxy/usage_allocator.py:131-140 | Finds the first sample of a plateau |
| Burn.SpansAWholeGap | src/anthropic_throttle_proxy/usage_allocator.py:113-151 | The burn is measured from no later than the start of the previous plateau |
| Burn.OneStepIsAveraged | src/anthropic_throttle_proxy/usage_allocator.py:113-151 | The reported burn times the gap before the last step is at most the step, whenever the previous plateau began a window ago or the epoch saw no other step |
| Burn.NeverTwiceThePace | src/anthropic_throttle_proxy/usage_allocator.py:113-151 | However many steps the lookback spans, steps of at most q at least g apart are never reported as more than twice q/g |
| Burn.TwiceIsTight | src/anthropic_throttle_proxy/usage_allocator.py:113-151 | No factor below two would do: two steps e seconds and g seconds apart are reported as two of them in e + g seconds, for every small e |
| Burn.MeasuredFromPlateau | src/anthropic_throttle_proxy/usage_allocator.py:131-146 | It is measured from the very start of the previous plateau iff that is the longer lookback or the epoch saw one step |
| Burn.FallingBurnsNothing | src/anthropic_throttle_proxy/usage_allocator.py:113-151 | A meter that never rises burns zero |
| FreeBudgets.FreeBudget.Admit | src/anthropic_throttle_proxy/free_budget.py:386-418 | Refines the admission function on the windows, in place |
| FreeBudgets.FreeBudget.BudgetBlocks | src/anthropic_throttle_proxy/free_budget.py:435-467 | The verdict per model, and without a model the most exhausted one decides; Headroom means that admission would allow the model, or every declared one |
| FreeBudgets.WindowCounts | src/anthropic_throttle_proxy/free_budget.py:232-244 | The window in force counts exactly the admissions since it opened, never over budget |
| FreeBudgets.TwiceTheBudget | src/anthropic_throttle_proxy/free_budget.py:386-418 | On a non-decreasing clock no interval as long as a window sees more than twice the budget |
| FreeBudgets.RefusalIsHonest | src/anthropic_throttle_proxy/free_budget.py:404-414 | A refusal retried after its Retry-After and one millisecond, or later, meets a fresh window |
| FreeBudgets.RefusalExact | src/anthropic_throttle_proxy/free_budget.py:228-229 | Without the millisecond that holds iff the rest is at most a second, whole, or a millisecond past a whole second |
| FreeBudgets.RefusalCanBeShort | src/anthropic_throttle_proxy/free_budget.py:228-229 | A concrete refusal whose Retry-After is half a millisecond short |
| FreeBudgets.VerdictAgrees | src/anthropic_throttle_proxy/free_budget.py:435-467 | Headroom is never reported where admission refuses; at full pressure the two coincide, and below it a model is blocked from the stated share of its budget on |
| FreeBudgets.UndeclaredDecision | src/anthropic_throttle_proxy/free_budget.py:386-400 | A model without a declared budget is refused exactly under a broken configuration or one that requires declarations, for a minute, and touches no window |
| Balancer.Conserved | src/anthropic_throttle_proxy/account_pool.py:50-93 | In any order of selected, begin and finish, pending = estimates of open tickets and total = sum of accounts' tokens |
| Balancer.MembersHaveAccounts | src/anthropic_throttle_proxy/account_pool.py:50-69 | In any order of events every member has an account, which a begin takes for granted |
| Balancer.JoinsAtTheFloor | src/anthropic_throttle_proxy/account_pool.py:50-59 | Whoever joins starts at the floor unless it was heavier, and whoever was a member keeps its work |
| Balancer.FloorIsLeast | src/anthropic_throttle_proxy/account_pool.py:50-53 | The floor is the least work among the members that stay, and is left alone if none does |
| Balancer.SelectedGoesLast | src/anthropic_throttle_proxy/account_pool.py:50-59 | In any order of events whoever was just selected has the latest turn, so everybody of equal weight comes before it |
| Balancer.QuantumIsAverage | src/anthropic_throttle_proxy/account_pool.py:39-41 | In any order of events an unmeasured request is priced at the average measured one, rounded down, and at 1024 tokens before any |
| Balancer.RankedByLoad | src/anthropic_throttle_proxy/account_pool.py:43-48 | In any order of events a member is ranked by its charged work, its open estimates and its queue's cost, an outsider by at least the floor |
| Balancer.ChargedOnce | src/anthropic_throttle_proxy/account_pool.py:71-93 | A finished ticket is never charged again |
| Balancer.ServeEffect | src/anthropic_throttle_proxy/account_pool.py:50-93 | A request served alone charges one account and changes no other |
| Balancer.NeverFurtherApart | src/anthropic_throttle_proxy/account_pool.py:43-93 | Greedy one-at-a-time service keeps members that started equal within the largest charge |
| Balancer.BalancedRoundRobin.MarkSelected | src/anthropic_throttle_proxy/account_pool.py:50-59 | Refines the selection: floor, joins, members and turn; it fails, with those already changed, iff the name is no account |
| Balancer.BalancedRoundRobin.BeginRequest | src/anthropic_throttle_proxy/account_pool.py:61-69 | Opens a ticket for the member holding the bearer, iff one does |
| Balancer.BalancedRoundRobin.FinishRequest | src/anthropic_throttle_proxy/account_pool.py:71-93 | Refines the finish: charge, estimate or discard, once |

## Left out

- The soft cap on recorded holds, release without a lease, and the `off` and `observe` queue modes: leak guards and pass-through behaviour.
- A second cancellation while a cleanup waits for the limiter's lock: the cleanup is one step here.
- Floating-point rounding: reals throughout; the correction loops of the predictor start from an arbitrary guess instead, and the early exit of its bisection on equal floats cannot happen.
- Rounds, residual descriptors and rounding of the drain estimate: display.
- Retry-after state files, retry probe gates, environment parsing, metrics, logs and snapshots of the limiter: I/O and display.
- JSON text, duplicate field names and number syntax: a snapshot is a tree of values.  Blank characters are those of ASCII and Latin-1.
- Temporary files, fsync and rename: a save leaves the old file, the new one, or the new one with an error.
- `_Entry`, `_Account` and `_Ticket` objects are records in their owner's sequence or map, and an operation of the persistence owner stands for its future, ticket and tasks: aliasing of those objects is not modelled.
- `PersistenceOwners.PersistenceOwner`: takes distinct state files as given; a failing load stands for every I/O error, and the pools built before it failed are dropped, where the original keeps them unused behind the fault.
- Interruption of the owner's cleanup tasks by a stopped event loop, and calls from another loop or thread.
- `routing.py` beyond the choice of the first open lane, and `proxy.py`: neither is part of this model; the ranked choice is any open untried lane of the chain.
- `Ingresses.Ingress.ProbeLane`: a probe that fails inside its response's context writes the closed verdict and then leaves that context; leaving it is taken to let no other task run.
- `Ingresses.Ingress.Forward`: request bodies, headers, streaming and cooldown measurements are not modelled; a transport has an arbitrary outcome.
- `Pacing.CaughtUp`: stated for 0 <= burst < 1, where the line has an inverse.
- `Burn.BurnPerH`: takes samples that are not later than the present, as its callers pass them.
- The remaining-law state of an account is modelled but only the line law's retry is proved honest: the remaining law advertises its measuring window.
- Balancer rows, dashboards, account labels and usage dictionaries: display.
