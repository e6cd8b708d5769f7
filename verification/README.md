# A verified model of the bhiksha trading runtime

bhiksha is a live options-trading runtime. This project models the parts of it in which a mistake would be
dearest and hardest to see in one function, and proves what they keep over whole runs:

- **The exit ladder** of one trade, evaluated once per quote on a state object (`profile_exit.dfy`), what a
  run of evaluations keeps (`ladder_runs.dfy`), the same for a caller that passes the shrinking residual
  (`ladder_residual.dfy`), and the ladder read as a list of rungs (`ladder_rungs.dfy`).
  Beside it the risk envelope and the safety stack (`exit_policy.dfy`) and the regular-session clock
  (`session_clock.dfy`).
- **Live entry**: price snapping, preflight and submission (`order_manager.dfy`), the entry limit and its
  frozen ceiling (`entry_pricing.dfy`), sizing and the resize loop (`entry_sizing.dfy`), and a whole
  `plan_entry` call as a state machine in which the broker, the ledgers and the clock answer as they like and
  the process may die between any two awaits (`entry_protocol.dfy`, with its invariant and main results in
  `entry_safety.dfy`, the calls that end by an exception in `entry_exceptions.dfy`, the price bound over all attempts
  in `entry_ceiling.dfy`, when the recovery loop goes on in `entry_recovery.dfy`, the gates before every BUY in
  `entry_gates.dfy`, and the tie between the code of an attempt and the steps in `entry_steps.dfy`).
- **The per-symbol dispatcher** (`dispatcher.dfy`) and **the merge of an older broker snapshot** into a tracker
  that moved meanwhile (`reconciliation.dfy`).
- **Durable recovery and projection**: replay of interrupted signal attempts over restarts and crashes
  (`attempt_recovery.dfy`, with more about whole runs in `attempt_runs.dfy`, what one restart makes of each attempt in
  `attempt_outcomes.dfy`, and the signals behind the attempts in `attempt_signals.dfy`), the projection of signals onto the manual-entry sheet (`sheet_projection.dfy`,
  `sheet_plan.dfy`, `sheet_planner.dfy`, `sheet_idempotence.dfy`, `sheet_readback.dfy`), and the weekly admissions
  registry (`weekly_admissions.dfy`).
- **Replay and compilation**: the trade-history scan (`replay_scan.dfy`), grouped enrichment
  (`replay_frames.dfy`), and the row accounting and release gate of an active plan (`plan_coverage.dfy`).

Prices, premiums and R multiples are reals; instants are whole seconds; contract counts are integers. Code
that works step by step is a method or a class, proved equal to a specification function; the laws are lemmas
about that function.

## Where the code does not keep the promise

Each of these is stated with the condition under which the promise holds, proved in both directions.

- Protection loosens, in the ladder and in the safety stack alike, when the giveback retrace fraction is above
  the whole peak: `LadderRuns.RatchetLawExactly`, `ExitPolicy.FoldLawExactly`.
- The ladder's exits of a caller that passes the residual quantity after a partial add up to the position only if
  the partial banked at least half of it, since the banked contracts are subtracted again:
  `LadderResidual.ResidualCallersClose`, with five contracts as the example in `LadderResidual.FiveExitsForThree`.
  The supervisor does pass the residual; what it then orders to close is its own and not part of this model.
- Crash safety of an entry needs the optional intent repository, in every call that can size an entry at all:
  `EntrySafety.CrashSafetyNeedsRepository`.
- A `plan_entry` call that ends by an exception has nothing live at the broker, but leaves reservations behind exactly
  when the cash guard raised after it had reserved, the final guard raised after a grant, or a cleanup raised while
  another release was owed: `EntryExceptions.RaisedCallExactly`. `EntryExceptions.RaisedGuardLeavesReservations` is a run.
- A merge drops or repeats the tracker's paper position unless the snapshot leaves its identity alone or has exactly
  one paper entry for it that the tracker can answer, and it is not idempotent for a paper position with a null
  identity part: `Reconciliation.PaperIsTrackersExactly`, `Reconciliation.MergeIsIdempotentExactly`. The runtime's
  snapshot has one position per identity, so there it can only drop one (`Reconciliation.PaperFromRuntimeSnapshot`), as
  it does with a null identity part (`Reconciliation.NullIdentityIsDropped`).
- A signal can have several attempts, since an attempt's id also names its plan and session. Each attempt is replayed
  at most once, so the signal exactly as often as it has attempts that were replayed:
  `AttemptSignals.SignalReplaysExactly`. A plan that changes between restarts can have it replayed twice
  (`AttemptSignals.ChangedPlanReplaysAgain`); a signal that keeps one attempt is not (`AttemptSignals.SignalAtMostOnce`).
- `release_safe` means distinct, accounted ids only if nothing was loaded that was not expected:
  `PlanCoverage.SafePlansAreDistinctExactly`. Both callers in the repository expect every enabled row, so for them it
  does: `PlanCoverage.ReleaseSafeRowByRow`.
- Grouped enrichment gives a deployment another symbol than its own when the frame has no symbol column and
  the deployments differ: `ReplayFrames.GroupingIsDirectExactly`, with two deployments in `ReplayFrames.ForeignSymbol`.
  The runtimes group deployments only on frames they have built with a symbol column.

## Model

| member | source | states |
|---|---|---|
| Rounding.RoundPriceOfCents | src/bhiksha/execution/order_manager.py:37-39 | rounding a price that is already whole cents leaves it |
| Rounding.RoundPriceBelowCents | src/bhiksha/execution/order_manager.py:37-39 | a positive price never rounds above a whole-cent bound it respects |
| ExitPolicy.IntegerPowerIsPower | src/bhiksha/execution/exit_policy.py:83-86 | whole-number curvatures satisfy the one thing the envelope needs of its power: monotone on the unit interval |
| ExitPolicy.HalfPowerIsPower | src/bhiksha/execution/exit_policy.py:83-96 | so do the halves between them, the default 1.5 among them, with any square root |
| ExitPolicy.EvaluateRiskEnvelope | src/bhiksha/execution/exit_policy.py:49-87 | fails exactly on the invalid dials; otherwise the floor lies between the initial floor and the floor at T1 |
| ExitPolicy.EnvelopeMonotone | src/bhiksha/execution/exit_policy.py:79-87 | a higher peak never gives a lower envelope floor |
| ExitPolicy.EnvelopeInterpolates | src/bhiksha/execution/exit_policy.py:79-87 | between activation and T1 the floor goes from its initial value to its value at T1 by the power of the way covered, and is the end value outside |
| ExitPolicy.ComposeSafetyStackFloorR | src/bhiksha/execution/exit_policy.py:90-132 | never below the existing floor, the initial floor or the armed giveback floor |
| ExitPolicy.FoldIsOneEvaluation | src/bhiksha/execution/exit_policy.py:110-126 | feeding each floor back over any sequence of peaks is one evaluation at the largest peak |
| ExitPolicy.FoldOrderIndependent | src/bhiksha/execution/exit_policy.py:110-126 | two histories with the same largest peak lock the same floor |
| ExitPolicy.FoldLawExactly | src/bhiksha/execution/exit_policy.py:118-126 | the fold law holds for a retrace fraction exactly when it is at most 1 |
| SessionClock.DaySumMeasuresOpenSeconds | src/bhiksha/execution/profile_exit.py:930-947 | the per-day sum of overlaps is the number of open seconds in the interval |
| SessionClock.ElapsedRegularSessionSeconds | src/bhiksha/execution/profile_exit.py:930-947 | the day loop returns the measure of the interval within the sessions, zero before entry, nothing without an entry time |
| SessionClock.OpenSecondsAdditive | src/bhiksha/execution/profile_exit.py:930-947 | open seconds add up over any split point |
| SessionClock.SessionClockLaws | src/bhiksha/execution/profile_exit.py:921-947 | additive at any split, monotone in now, between zero and wall-clock elapsed |
| ProfileExit.ProfileExitState.ReseedForLive | src/bhiksha/execution/profile_exit.py:422-444 | whatever the ladder had accumulated, reseeding makes it a fresh one, keeping the seed quantity unless a new one is given |
| ProfileExit.PartialQuantity | src/bhiksha/execution/profile_exit.py:913-918 | a real fraction of more than one contract banks strictly inside the position, anything else the whole |
| ProfileExit.PartialIsNearest | src/bhiksha/execution/profile_exit.py:913-918 | the bank is the whole number of contracts nearest to its share, kept inside the position |
| ProfileExit.EvaluateProfileExit | src/bhiksha/execution/profile_exit.py:485-749 | one evaluation on the state object gives the outcome and the new state of `Step` |
| ProfileExit.BankTarget1InPlace | src/bhiksha/execution/profile_exit.py:632-663 | target 1 is a partial exactly for several contracts and a real fraction, then strictly inside the position, recorded as banked, with the breakeven move armed where configured; otherwise it closes and records the whole |
| LadderRungs.FirstRungDecides | src/bhiksha/execution/profile_exit.py:555-727 | a quote exits exactly when a rung holds, by the first one that does, for its quantity; an unusable policy raises unless one of the two stops above it holds |
| LadderRungs.StopIsFirstPositiveDial | src/bhiksha/execution/profile_exit.py:175-186 | the stop distance is the first positive one of three dials, or else 45% |
| LadderRungs.StopsInDollars | src/bhiksha/execution/profile_exit.py:562-602 | when the two stops hold, in dollars of premium |
| LadderRungs.Target1InDollars | src/bhiksha/execution/profile_exit.py:627-631 | when target 1 holds, in dollars |
| LadderRungs.Target2InDollars | src/bhiksha/execution/profile_exit.py:665-671 | when the runner target holds, in dollars, with its fallback |
| LadderRungs.GivebackInDollars | src/bhiksha/execution/profile_exit.py:680-696 | the giveback fires at what is left of the peak gain once that gain has reached its arm, by dial or tier |
| LadderRungs.NoProgressInDollars | src/bhiksha/execution/profile_exit.py:709-724 | the no-progress stop needs its time and a peak gain below its floor |
| LadderRungs.PreservationInDollars | src/bhiksha/execution/profile_exit.py:604-625 | once the peak gain reaches its arm, profit preservation closes at its floor |
| LadderRungs.QuantisedIsLargestGridPoint | src/bhiksha/execution/profile_exit.py:618-620 | the ratchet takes the largest grid point from the initial floor that is not above the raw floor, up to the constant slack |
| LadderRungs.EnvelopeOnGrid | src/bhiksha/execution/profile_exit.py:610-620 | the envelope policy's floor is the raw floor at the peak on that grid |
| LadderRungs.UnusableExactly | src/bhiksha/execution/profile_exit.py:610-620 | a policy raises, whatever the peak, exactly when it is an envelope with one of the named faults |
| LadderRungs.ProtectiveExitsAreAtTheLevel | src/bhiksha/execution/profile_exit.py:562-699 | stops, policy floor and giveback close the trade only at or below the protective level |
| LadderRungs.PeakIsLargestPlainHold | src/bhiksha/execution/profile_exit.py:729-743 | over any run the recorded peak is the largest of the seed and the plainly held quotes, and is one of them |
| LadderRuns.LevelNeverLoosens | src/bhiksha/execution/profile_exit.py:555-743 | over any run from any state the protective level never decreases |
| LadderRuns.KeptOnlyAboveLevel | src/bhiksha/execution/profile_exit.py:555-743 | a quoted tick that does not exit is strictly above the protective level |
| LadderRuns.HoldsStayAboveEveryEarlierLevel | src/bhiksha/execution/profile_exit.py:555-743 | a quoted tick that does not exit is strictly above the level of every earlier tick too |
| LadderRuns.RatchetLawExactly | src/bhiksha/execution/profile_exit.py:681-699 | the level never loosens for a retrace fraction exactly when it is at most 1 |
| LadderRuns.ContractsAreConserved | src/bhiksha/execution/profile_exit.py:627-663 | from a fresh state: at most one partial, strictly inside; at most one breakeven move, after it; the first full exit completes the quantity |
| LadderRuns.BreakevenFollowsPartial | src/bhiksha/execution/profile_exit.py:729-739 | from a fresh state: a quote that neither exits nor raises moves the stop to the entry premium exactly when it is the first such one after the partial of a profile that asks for it, so after it there has been one move for the partial |
| LadderRuns.KeptQuoteExactly | src/bhiksha/execution/profile_exit.py:729-749 | a quote that neither exits nor raises makes the pending move, and otherwise plainly holds |
| LadderResidual.ResidualCallersClose | src/bhiksha/execution/profile_exit.py:908-910 | over every run of a caller that passes the residual: the first full exit completes the position exactly when no partial came before it or the partial banked at least half |
| LadderResidual.FiveExitsForThree | src/bhiksha/execution/profile_exit.py:908-918 | five contracts, two banked: the stop after the partial exits for one of the three left |
| LadderRuns.HardFlatSellsEverything | src/bhiksha/execution/profile_exit.py:526-549 | from a fresh state the whole position has been sold after any tick at or past hard flat |
| LadderRuns.TimeLimitsAreMet | src/bhiksha/execution/profile_exit.py:701-727 | no quoted tick at or past a binding time limit leaves the position untouched |
| LadderRuns.HeldToTheLimit | src/bhiksha/execution/profile_exit.py:514-712 | the hold limit is measured by the wall clock for intraday profiles and by open session seconds for the others |
| LadderRuns.BeforeTheRungs | src/bhiksha/execution/profile_exit.py:506-554 | no position, no risk, a missing bar clock, hard flat and a missing premium are answered first, each in its way |
| LadderRuns.MaxHoldStaysReached | src/bhiksha/execution/profile_exit.py:701-712 | once the hold limit is reached every later quoted tick exits or raises |
| OrderManagement.SnapNeverRaises | src/bhiksha/execution/order_manager.py:112-120 | snapping a whole-cent price never raises it |
| OrderManagement.SnapIsLargestTick | src/bhiksha/execution/order_manager.py:112-120 | for whole-cent increments the snapped price is the largest tick at or below the limit |
| OrderManagement.OrderManager.CachePriceIncrement | src/bhiksha/execution/order_manager.py:548-554 | a learned increment is kept for the symbol and its underlying, and found again |
| OrderManagement.OrderManager.PreflightEntry | src/bhiksha/execution/order_manager.py:182-216 | at most three requests; a returned check's costs answer exactly the returned price and quantity, the limit floored to the returned increment; a failure is a failed request, a limit that the last increment cannot price, or a third answer that still moved it |
| OrderManagement.OrderManager.ApplyIncrementCorrection | src/bhiksha/execution/order_manager.py:503-536 | the price is floored to the known or disclosed increment, if there is one; a disclosed one is cached, a known one left alone |
| OrderManagement.OrderManager.PlaceEntryOrder | src/bhiksha/execution/order_manager.py:224-235 | at most two submissions under one id with falling prices, the second only after a definite increment rejection; no order id means every submission was definitely rejected; all of it the function of its answers that the protocol's steps refine |
| OrderManagement.SubmissionsExactly | src/bhiksha/execution/order_manager.py:456-501 | exactly when a placement submits not at all, once, or twice, and with which prices |
| OrderManagement.HeldExactly | src/bhiksha/execution/order_manager.py:432-454 | what an answer leaves to hold: the broker's id, nothing after a definite 4xx, and otherwise the client's own id as uncertain |
| EntryPricing.LimitWithinCeilings | src/bhiksha/execution/pricing.py:130-165 | a selected limit is positive whole cents, under the ask and under every ceiling given |
| EntryPricing.SelectionExactly | src/bhiksha/execution/pricing.py:130-165 | for a usable quote: blocked only under a ceiling that is not positive, raised only when no cent fits, and otherwise the largest whole cent under the proposed price, the ask and the ceiling, which is the least of the bounds given |
| EntryPricing.UnusableIsBlocked | src/bhiksha/execution/pricing.py:136-138 | a quote that is stale, one-sided, crossed, without the open interest asked for or absurdly wide is blocked |
| EntryPricing.FrozenCeilingNeverChases | src/bhiksha/execution/planner.py:332-337 | once frozen, no later quote moves the ceiling or selects a limit above it |
| EntrySizing.PlannedStopLossMonotone | src/bhiksha/risk/planned_loss.py:27-42 | the rounded planned loss is monotone in the quantity |
| EntrySizing.PlannedStopLossInDollars | src/bhiksha/risk/planned_loss.py:27-42 | the planned loss is known exactly for a usable stop, and is whole cents within half a cent of the stop's share of the position in dollars |
| EntrySizing.LargestWithinLoss | src/bhiksha/execution/planner.py:98-107 | the binary search finds the largest quantity whose loss fits the headroom |
| EntrySizing.FitLiveQuantity | src/bhiksha/execution/planner.py:71-113 | no reason means the largest quantity that fits bound, cap, cash and loss; a reason means that none fits, and it is the one that refuses a single contract |
| EntrySizing.FitsInDollars | src/bhiksha/execution/planner.py:71-113 | a quantity fits exactly when it does in dollars, at 100 shares a contract: cap, cash left after the fees, and planned loss |
| EntrySizing.LargestFitInDollars | src/bhiksha/execution/planner.py:71-113 | the largest quantity costs at most the cap in dollars, and one contract more breaks one of the limits so stated |
| EntrySizing.SizeLiveEntry | src/bhiksha/execution/planner.py:668-750 | each of at most three preflights is for the settled price and the largest quantity that fitted before it; on success the last was for exactly the final quantity and price, and the cost is within the cap and the cash to reserve; it fails only when not one contract fits, a preflight fails, or the third quantity still shrank |
| EntrySizing.AskedShrinks | src/bhiksha/execution/planner.py:668-735 | the preflighted quantities are among those requested and strictly shrink |
| EntrySizing.RequiredCashCovers | src/bhiksha/execution/planner.py:745-750 | the cash to reserve covers the position in dollars with its fees and both broker figures, and is one of these |
| EntrySafety.RunKeeps | src/bhiksha/execution/planner.py:119-163 | every event sequence, crashes included, keeps the protocol invariant |
| EntrySafety.CrashSafety | src/bhiksha/execution/planner.py:785-913 | whenever the broker may hold a BUY its pending intent exists under the same id and quantity; a closed intent means every submission was refused |
| EntrySafety.ReservationDiscipline | src/bhiksha/execution/planner.py:753-913 | at most one attempt is live or uncertain, and its reservations stand; every other attempt holds nothing; a returned plan with an order is the live one, without an order it holds nothing either; a call that raised has nothing live |
| EntryExceptions.RaisedStepExactly | src/bhiksha/execution/planner.py:753-913 | the step at which the call raises leaves a reservation exactly in three cases, told by the step |
| EntryExceptions.RaisedCallExactly | src/bhiksha/execution/planner.py:119-163 | over every run that ends by an exception: nothing live, nothing reserved but for the current attempt, and for that exactly when its exception was one of the three |
| EntryExceptions.RaisedGuardLeavesReservations | src/bhiksha/execution/planner.py:887-896 | any call that can size an entry can raise with cash and risk reserved, its intent open and nothing submitted |
| EntrySafety.UnorderedPlanClosesIntent | src/bhiksha/execution/planner.py:790-793 | a returned plan without an order, the previous attempt's included, leaves no pending intent, unless the returned attempt's own write failed |
| EntrySafety.SpendIsBounded | src/bhiksha/execution/planner.py:668-760 | every submitted BUY costs in dollars, at 100 shares a contract, at most the premium cap and at most the cash reserved for it |
| EntrySafety.ReservedCashInDollars | src/bhiksha/risk/cash_guard.py:60 | the cash held is the requirement to the nearest cent, never negative |
| EntryGates.EveryBuyPassedItsGates | src/bhiksha/execution/planner.py:753-913 | over every run: a submitted trade had its cash granted, its intent written, its risk granted and its guard passed, in this order and in its own attempt; while it may be live, what was granted in earnest is held |
| EntryGates.IntentIsNeverForgotten | src/bhiksha/execution/planner.py:785-806 | a durable intent is closed but never removed |
| EntryCeiling.FirstPricingIsFrozen | src/bhiksha/execution/planner.py:332-403 | the first approved pricing of a contract freezes its ceiling, and nothing else changes a reference |
| EntryCeiling.FirstPricingFreezesAll | src/bhiksha/execution/planner.py:332-403 | it freezes mid, width and ceiling and leaves the other inputs as configured, whether the attempt is then sized or blocked |
| EntryCeiling.ReferencesStayFrozen | src/bhiksha/execution/planner.py:121-163 | a frozen reference stays as it is for the rest of the call, whatever happens |
| EntryCeiling.NoBuyAboveFirstCeiling | src/bhiksha/execution/planner.py:332-403 | over all attempts, rebuilds and crashes no BUY of a contract is above the ceiling first frozen for it |
| EntrySteps.PriceAndSize | src/bhiksha/execution/planner.py:332-701 | pricing under the frozen references and sizing at the ceiling end in an event that the protocol accepts, the last preflight for exactly what was sized; the attempt is blocked only by its pricing, a check in between, a cap that buys no contract, or a failed sizing, and raises only with the pricing |
| EntrySteps.RequestedIsLargest | src/bhiksha/execution/planner.py:516-520 | the quantity asked for is the largest that the cap pays for in dollars and the contract limit allows |
| EntrySteps.WhatAnotherContractCures | src/bhiksha/execution/planner.py:152-159 | which blocks of pricing and sizing let the recovery loop try another contract |
| EntrySteps.PlacementIsSubmission | src/bhiksha/execution/order_manager.py:432-501 | a placement is a run of the protocol's submission steps: same prices, quantities and answers, same order to hold or reservations to unwind |
| EntrySteps.SubmitAttempt | src/bhiksha/execution/planner.py:897-913 | the order manager's method, called on an armed attempt, is such a run |
| EntrySafety.SubmissionsAreBounded | src/bhiksha/execution/order_manager.py:456-501 | at most two submissions a trade, the second no dearer and after a definite increment rejection |
| EntrySafety.RepeatsRunDown | src/bhiksha/execution/planner.py:144-159 | each repeat uses up a rank or the rebuild, rank jumps included |
| EntryRecovery.RecoveryIsExhausted | src/bhiksha/execution/planner.py:144-159 | in every reachable state: a returned, unordered plan of the last attempt that another contract or quote might cure comes at the last candidate, and for a stale quote after the rebuild |
| EntryRecovery.EveryRepeatIsOneMove | src/bhiksha/execution/planner.py:144-159 | a further attempt begins only from a decided plan without an order, by the one rebuild for a stale quote at the same candidate or by moving exactly one candidate on |
| EntryRecovery.DecisionExactly | src/bhiksha/execution/planner.py:144-159 | the loop returns exactly for an order or a reason to give up, and otherwise makes one of the two moves |
| EntryRecovery.RefusalsSayWhy | src/bhiksha/execution/planner.py:753-896 | whoever refuses a sized attempt gives the reason that the loop then decides on |
| EntrySafety.LoopNeverExhausts | src/bhiksha/execution/planner.py:121-163 | the recovery loop never runs out of its six iterations |
| EntrySafety.CrashSafetyNeedsRepository | src/bhiksha/execution/planner.py:794-806 | for a call that some quote can size, crash safety of its trades holds exactly when the intent repository is configured |
| Dispatcher.EveryInterleavingKeeps | src/bhiksha/app/execution_dispatcher.py:37-85 | every interleaving of submit, stop, dequeue and ending or failing runner keeps the lane invariant |
| Dispatcher.PendingIsOutstanding | src/bhiksha/app/execution_dispatcher.py:46-72 | the pending keys are exactly those queued or in flight, without duplicates |
| Dispatcher.AcceptedExactly | src/bhiksha/app/execution_dispatcher.py:46-62 | in every interleaving a task joins the end of what is outstanding, unless a task with its key is queued or running; then nothing changes |
| Dispatcher.RunsInAcceptanceOrder | src/bhiksha/app/execution_dispatcher.py:74-85 | started tasks are a prefix of the accepted ones; an ended worker ran exactly those accepted before the stop |
| Dispatcher.StopDrains | src/bhiksha/app/execution_dispatcher.py:37-85 | after a stop, whatever is submitted meanwhile, the worker has ended exactly when it has made a fixed number of moves, and has then run exactly the tasks accepted before |
| Dispatcher.StopNeverStalls | src/bhiksha/app/execution_dispatcher.py:74-85 | until then the worker can always move |
| Dispatcher.SymbolDispatcher.Submit | src/bhiksha/app/execution_dispatcher.py:46-62 | a task is accepted exactly when its key is not pending; key, identity and queue change accordingly |
| Dispatcher.SymbolDispatcher.WorkerTake | src/bhiksha/app/execution_dispatcher.py:74-80 | the worker takes the head of the queue, or ends at the sentinel |
| Dispatcher.SymbolDispatcher.WorkerFinish | src/bhiksha/app/execution_dispatcher.py:79-85 | after a runner, failed or not, its key and identity are free again |
| Dispatcher.SymbolDispatcher.Stop | src/bhiksha/app/execution_dispatcher.py:37-39 | a stop puts a sentinel behind everything queued |
| Reconciliation.PreserveNewerPendingExitState | src/bhiksha/app/runtime.py:2337-2397 | the method's loops compute the merge |
| Reconciliation.NoExitIsLost | src/bhiksha/app/runtime.py:2355-2391 | a live position whose tracker twin has a pending exit keeps one no older, its own or the twin's |
| Reconciliation.NewerExitWins | src/bhiksha/app/runtime.py:2355-2411 | in times: a tracker exit with a time gives way only to a snapshot exit submitted no earlier, and otherwise the exit's order id, time and mode are the tracker's; without a time, only to a snapshot position that has an exit |
| Reconciliation.UnansweredStays | src/bhiksha/app/runtime.py:2349-2371 | without a tracker twin that has an exit, or with a null identity part, a live position stays as it is |
| Reconciliation.LiveHoldingsStay | src/bhiksha/app/runtime.py:2355-2391 | every live snapshot position stays, with its own orders unless a twin's pending exit is newer |
| Reconciliation.LiveHoldingsAreTheSnapshots | src/bhiksha/app/runtime.py:2355-2397 | every live position of the result has the holding of its snapshot position, or is the tracker's own twin of a snapshot paper position |
| Reconciliation.PaperCount | src/bhiksha/app/runtime.py:2355-2396 | how often a paper position appears in the result, for any snapshot |
| Reconciliation.PaperIsTrackersExactly | src/bhiksha/app/runtime.py:2362-2396 | the result's paper positions are the tracker's, each as often, exactly when the snapshot leaves each identity alone or has one answerable paper entry for it |
| Reconciliation.PaperIsTrackersWhenComplete | src/bhiksha/app/runtime.py:2362-2396 | with complete distinct identities and no live twin, paper is the tracker's, each position once |
| Reconciliation.MergeTrackedPositions | src/bhiksha/app/runtime.py:2326-2334 | the dictionary by identity gives the snapshot |
| Reconciliation.MergeTrackedKeepsLast | src/bhiksha/app/runtime.py:2326-2334 | a snapshot has one position per identity, the last one given |
| Reconciliation.PaperFromRuntimeSnapshot | src/bhiksha/app/runtime.py:1675-1686 | for such a snapshot paper is the tracker's exactly when none of it is masked |
| Reconciliation.NullIdentityIsDropped | src/bhiksha/app/runtime.py:2349-2368 | a paper position without trade id or option symbol, in the snapshot as in the tracker, is lost |
| Reconciliation.MergeIsIdempotentExactly | src/bhiksha/app/runtime.py:2337-2397 | merging again changes nothing exactly when no tracker paper position is adrift |
| AttemptRecovery.CollectUnresolved | src/bhiksha/experiments/cartographer_attempts.py:231-292 | the table-filling pass returns the started, unresolved attempts in start order with context, marker and latest plan |
| AttemptRecovery.PendingFacts | src/bhiksha/experiments/cartographer_attempts.py:282-292 | an attempt is pending exactly when it started and has no outcome, once each |
| AttemptRuns.SuffixLaw | src/bhiksha/experiments/cartographer_attempts.py:190-292 | in every log that a run leads to in which sessions and replays write an attempt's start before anything else about it, a suffix with the attempt's first start classifies it as the whole log does |
| AttemptRuns.RunOpened | src/bhiksha/execution/supervisor.py:1806-1830 | such runs keep every row about an attempt behind a start of it, restarts and crashes included |
| AttemptRuns.OutcomeBeforeStartIsLost | src/bhiksha/experiments/cartographer_attempts.py:231-292 | without that order of writing the suffix law fails |
| AttemptRecovery.SuffixClassifiesAlike | src/bhiksha/experiments/cartographer_attempts.py:190-292 | the same of any log that tells of the attempt's start before anything else about it |
| AttemptRecovery.ReplayedExactly | src/bhiksha/experiments/cartographer_attempts.py:154-187 | a restart replays an attempt exactly when it is unresolved, unmarked, unplanned, fresh, shadow-only and without an entry |
| AttemptRecovery.AtMostOnce | src/bhiksha/active_plan/runtime.py:114-315 | over any sessions, restarts and crashes, however little of the log each restart reads: at most one replay of an attempt, none without its marker, and at most one start row and one outcome |
| AttemptRecovery.EveryRunIsDisciplined | src/bhiksha/active_plan/runtime.py:114-315 | the same for every run from an empty log |
| AttemptRecovery.WriteKeeps | src/bhiksha/persistence/sqlite.py:117-149 | the repository's append keeps one start row and one outcome per attempt |
| AttemptRecovery.MarkedIsNeverReplayed | src/bhiksha/experiments/cartographer_attempts.py:154-201 | a restart never replays an attempt that carries its marker, even when the marker lies beyond the events it reads |
| AttemptRecovery.AppendRow | src/bhiksha/persistence/sqlite.py:117-149 | the scan of the earlier rows drops a repeated start row, marker or outcome and appends anything else |
| AttemptRecovery.RestartSettles | src/bhiksha/active_plan/runtime.py:142-315 | a restart that is not cut short resolves, marks or defers every attempt it found |
| AttemptOutcomes.RestartDoesWhatIsOwed | src/bhiksha/active_plan/runtime.py:142-315 | what a restart writes and replays about an attempt, from the facts alone: closed by its plan, left to wait for its validity, replayed behind its marker, failed, or censored; nothing about any other attempt |
| AttemptOutcomes.DeferredExactly | src/bhiksha/experiments/cartographer_attempts.py:154-187 | left for a later restart exactly when only the beginning of its validity is missing |
| AttemptOutcomes.PlanDecidesOutcome | src/bhiksha/active_plan/runtime.py:147-163 | after a complete restart an unresolved attempt with a plan is an execution if the last plan was approved and blocked if it was not |
| AttemptOutcomes.WaitingIsUntouched | src/bhiksha/active_plan/runtime.py:142-315 | a restart, complete or cut short, leaves no row about an attempt that waits or is not unresolved, unless another attempt's replay writes one |
| AttemptOutcomes.PlanIsTheLast | src/bhiksha/experiments/cartographer_attempts.py:231-292 | the plan that counts is the last one persisted |
| AttemptOutcomes.ContextIsTheStartRows | src/bhiksha/experiments/cartographer_attempts.py:231-292 | the last start row gives the context, whatever decision rows there are |
| AttemptOutcomes.ContextIsTheFirstDecisions | src/bhiksha/experiments/cartographer_attempts.py:231-292 | without a start row the first decision row does, and it knows no validity |
| AttemptOutcomes.OrderIsByFirstStart | src/bhiksha/experiments/cartographer_attempts.py:231-292 | attempts are taken in the order in which they first started |
| AttemptOutcomes.WriteExactly | src/bhiksha/persistence/sqlite.py:117-149 | a row is dropped exactly when its start, outcome or marker record is there |
| AttemptRuns.RestartResolvesMarked | src/bhiksha/active_plan/runtime.py:142-315 | a restart that is not cut short and still reads the start row resolves every marked attempt |
| AttemptRuns.SecondRestartResolves | src/bhiksha/active_plan/runtime.py:142-315 | two such restarts, with anything written between, resolve every attempt the first found and did not defer |
| AttemptSignals.SignalReplaysExactly | src/bhiksha/experiments/cartographer_attempts.py:45-66 | over every run a signal is replayed exactly as often as it has different attempts that were replayed |
| AttemptSignals.SignalAtMostOnce | src/bhiksha/experiments/cartographer_attempts.py:45-66 | at most once when the signal keeps one attempt |
| AttemptSignals.ChangedPlanReplaysAgain | src/bhiksha/active_plan/runtime.py:280-294 | a replay that writes its signal under a new attempt, and dies, is followed by a second replay of the signal |
| AttemptRecovery.Process.ReconcileAttempts | src/bhiksha/active_plan/runtime.py:114-315 | the loops append and replay exactly the effects of a restart, cut short where the process dies |
| AttemptRecovery.Process.CloseDecided | src/bhiksha/active_plan/runtime.py:147-179 | persisted plans and consumed retries are closed first, the rest remains |
| AttemptRecovery.Process.MarkAndReplay | src/bhiksha/active_plan/runtime.py:280-309 | the marker is written, then the replay runs; an exception in either, before or after the marker's row is there, is recorded as a failure and without the marker nothing is replayed |
| SheetProjection.ProjectIsProjection | src/bhiksha/integrations/cartographer_projector.py:199-245 | the projected sheet row by row: kept, renewed with the human's and runtime's cells, or added for a signal of today |
| SheetProjection.RefusedExactly | src/bhiksha/integrations/cartographer_projector.py:203-232 | a batch passes exactly when every signal is usable and meets no foreign row, other hash or clashing signal |
| SheetProjection.Preserved | src/bhiksha/integrations/cartographer_projector.py:233-244 | enabled, mode, writeback and named-exit cells are the existing row's; the management spec is the existing one, blank beside a named exit; every other cell is the signal's |
| SheetProjection.RetryColumns | src/bhiksha/integrations/cartographer_projector.py:233-244 | a retry, column by column |
| SheetProjection.NewColumns | src/bhiksha/integrations/cartographer_projector.py:204-218 | a new row, column by column |
| SheetProjection.PreservedTwice | src/bhiksha/integrations/cartographer_projector.py:233-244 | renewing a renewed row changes nothing |
| SheetProjection.ProjectSignals | src/bhiksha/integrations/cartographer_projector.py:184-254 | the loop with its index by id computes the projection of the padded rows, errors included |
| SheetPlan.PlannedIndexesAreDistinct | src/bhiksha/integrations/cartographer_projector.py:301-339 | no row index is planned twice |
| SheetPlan.ForeignRowsAreNeverWritten | src/bhiksha/integrations/cartographer_projector.py:294-339 | every planned write goes to an owned row or below the sheet |
| SheetPlan.KeptCellsAreNeverChanged | src/bhiksha/integrations/cartographer_projector.py:306-339 | a write to an existing row replaces a stale row, or renews the row of its own signal and keeps the preserved cells |
| SheetPlan.UpdateKinds | src/bhiksha/integrations/cartographer_projector.py:301-339 | the planned writes are exactly the changed kept rows, the placed new rows and the cleared stale rows |
| SheetPlanner.PlanProjection | src/bhiksha/integrations/cartographer_projector.py:277-339 | the planning loops compute the plan, duplicates and refusals included |
| SheetPlanner.PlanAdded | src/bhiksha/integrations/cartographer_projector.py:321-334 | new rows take the stale indexes in order, then the indexes below the sheet; the rest is left to clear |
| SheetPlanner.ExactWriteIsInPlace | src/bhiksha/integrations/cartographer_projector.py:363-368 | writing the planned cells exactly puts every row at its planned index and leaves the others |
| SheetPlanner.CheckReadback | src/bhiksha/integrations/cartographer_projector.py:368-380 | the readback by id and the test of the cleared indexes |
| SheetReadback.InPlaceIsConfirmed | src/bhiksha/integrations/cartographer_projector.py:363-380 | a write that put every row in its place passes the readback |
| SheetReadback.ConfirmedIsArranged | src/bhiksha/integrations/cartographer_projector.py:368-380 | a passed readback with the other rows unchanged means that the sheet shows each planned row exactly once |
| SheetPlanner.EveryPlanCanBeWritten | src/bhiksha/integrations/cartographer_projector.py:363-380 | every plan that is not refused has a write that the readback confirms |
| SheetReadback.SecondPlanIsEmpty | src/bhiksha/integrations/cartographer_projector.py:257-345 | after a write that the readback confirmed, with the other rows unchanged, planning the same batch for the same day plans nothing |
| SheetReadback.SignalsAreShown | src/bhiksha/integrations/cartographer_projector.py:257-380 | after a confirmed write every signal of today has a row with its own cells, over the kept cells of the row that bore its id, or all of them in a new row |
| SheetReadback.OwnedRowsAreTheBatchs | src/bhiksha/integrations/cartographer_projector.py:284-380 | after a confirmed write no row of an earlier batch is left over, and every row of anybody else is where it was |
| WeeklyAdmissions.ImportPublication | src/bhiksha/integrations/cartographer_weekly.py:157-185 | the three passes over the registry compute one import |
| WeeklyAdmissions.KnownPlanExactly | src/bhiksha/integrations/cartographer_weekly.py:157-185 | a known plan is blocked exactly when another publication offers it or supersedes its pack, and armed early exactly when shadow policy pairs that and it is neither blocked, nor run out, nor armed; nothing else changes |
| WeeklyAdmissions.NewPlanExactly | src/bhiksha/integrations/cartographer_weekly.py:157-185 | every offered id is admitted, on the terms of its first offer, unblocked, at this instant |
| WeeklyAdmissions.AdmissionsAreFrozen | src/bhiksha/integrations/cartographer_weekly.py:162-179 | from any import on a plan keeps its terms and admission, a block is never lifted, an early arm is given once |
| WeeklyAdmissions.OneSourceAlways | src/bhiksha/integrations/cartographer_weekly.py:168-175 | in every reachable registry the unblocked plans of a pack come from one publication |
| WeeklyAdmissions.ImportIsIdempotent | src/bhiksha/integrations/cartographer_weekly.py:144-179 | importing the same publication again, now or later and without the branches expired meanwhile, changes no plan |
| ReplayScan.ScanTradeHistory | src/bhiksha/app/replay.py:133-225 | the scan returns the recursive first-signal, first-exit history |
| ReplayScan.HistoryExactly | src/bhiksha/app/replay.py:146-225 | that history is the one sequence of trades made of first entries and first exits with no signal left over |
| ReplayScan.ExitIsByPriority | src/bhiksha/app/replay.py:170-220 | hard flat comes before the thesis, the thesis before the strategy, and the strategy is asked for algorithmic exits only |
| ReplayScan.HistoryIsOrdered | src/bhiksha/app/replay.py:146-225 | trades are ordered and disjoint, and only the last may be open |
| ReplayScan.ScanBar | src/bhiksha/app/replay.py:146-220 | one bar opens, keeps or closes the trade, with hard flat before thesis before strategy |
| ReplayFrames.PrepareEnrichedFrames | src/bhiksha/app/replay.py:48-66 | the grouped loops give each deployment a frame enriched for its own needs under the first deployment's symbol |
| ReplayFrames.GroupingIsDirectExactly | src/bhiksha/app/replay.py:37-66 | grouped and direct enrichment agree exactly when the frame has a symbol or all deployments share the first one's |
| ReplayFrames.ForeignSymbol | src/bhiksha/app/replay.py:37-66 | on a frame without a symbol a second deployment of another symbol is prepared under the first one's |
| PlanCoverage.CompileRowsInOrder | src/bhiksha/active_plan/compiler.py:435-484 | the row loop computes the deployments and suppressions |
| PlanCoverage.RowsAreConserved | src/bhiksha/active_plan/compiler.py:439-484 | each row becomes exactly one deployment or one suppression, by id and by count |
| PlanCoverage.FirstRowDecides | src/bhiksha/active_plan/compiler.py:439-484 | the first row of an id decides whether it is deployed or gated |
| PlanCoverage.GapExactly | src/bhiksha/active_plan/compiler.py:488-514 | the gap is the expected count less the ids expected or loaded; nothing is lost exactly when every expected id is loaded or gated |
| PlanCoverage.GapCountsRepeats | src/bhiksha/active_plan/compiler.py:510-514 | with nothing loaded unasked the gap is the number of repeated ids |
| PlanCoverage.ReleaseSafeExactly | src/bhiksha/active_plan/compiler.py:537-541 | release-safe exactly when the expected ids are distinct and each is loaded or gated |
| PlanCoverage.SafePlansAreDistinctExactly | src/bhiksha/active_plan/compiler.py:510-541 | a safe plan's expected ids are distinct exactly when nothing was loaded unasked |
| PlanCoverage.UnaskedDeploymentHidesRepeat | src/bhiksha/active_plan/compiler.py:510-541 | a plan that is called safe although an expected id is repeated |
| PlanCoverage.ReleaseSafeRowByRow | src/bhiksha/active_plan/compiler.py:380-541 | whenever every enabled row is expected: safe exactly when the expected ids are distinct and each is loaded by its first row or gated |
| PlanCoverage.GateAgrees | src/bhiksha/active_plan/compiler.py:353-367 | the two tests of the release gate agree on every summary |
| PlanCoverage.CompilePlan | src/bhiksha/active_plan/compiler.py:414-541 | every row is accounted for, and when every enabled row is expected the plan passes the release gate exactly when the expected ids are distinct and none of them was lost |

## Left out

- EvaluateRiskEnvelope: real exponents are a parameter assumed monotone on the unit interval; natural exponents and the halves between them are proved to be such, others are not.
- Type errors and non-finite numbers in dials, quotes and broker answers; binary floating point. The ratchet's 1e-10 and the price rounding's 1e-9 are kept as constants.
- Time zones and daylight saving: the session calendar is a parameter whose sessions lie inside their own day.
- The four exit field loaders, the dispatch gate and the mapping of ladder decisions to exit decisions: one-branch readings.
- The protocol of a live entry is a state machine over values, since a crash may fall between any two awaits; the code inside its steps is tied to it by `entry_steps.dfy`. Dry runs, simulation and the canary's own checks are not part of it.
- The quote refresh inside an attempt: an attempt has the quote it priced last. Why an attempt is blocked is kept only as far as the recovery loop asks.
- HasCeilings: pricing references handed to a call are taken to hold the ceiling that an earlier call froze, as the retry that hands them on does.
- PlaceEntryOrder: the broker's answers, the guard's verdicts and the disclosed increments are parameters; the wording of errors is not modelled.
- CachePriceIncrement: the mapping from an option symbol to its underlying is a parameter.
- `cancel_order`, `wait_for_fill`, stop, target and close orders.
- Cash guard, risk manager, intent repository, selector and strategies appear only as outcomes: granted, refused, raised before or after taking effect. Releases are idempotent.
- Submit: the dispatcher is modelled for one symbol at a time, symbols being independent; a worker cancelled from outside is not modelled.
- The status counters and failure severities of a reconciliation snapshot.
- CollectUnresolved: a dedicated start row is taken to carry all the facts recovery reads, as the writer of such rows does; consumed retries are a parameter, and the counts and log lines returned are not modelled. A crash within a replay is a replay that emitted less; an append other than the marker's that raises ends the restart like a crash.
- AtMostOnce: rows written before the repository dropped repeats are not modelled. That sessions write an attempt's start first, which SuffixLaw asks of a run, is how the supervisor's signal handler writes; the handler itself is not modelled.
- `trigger_accounting`: daily counts over the same tables.
- ProjectSignals: cells are strings, ids are compared as they stand, and the hash, the profile bundle and the target cells of a signal are given with it; equal hashes mean equal signals. The receipt and the rollback preimage are not modelled.
- SecondPlanIsEmpty: the sheet may coerce cells as it likes within the comparison's own normal form; ids and exit names are stored as written. That rows nobody wrote stay as they are is assumed of the sheet; the readback does not look at them. Header order is not modelled.
- ImportPublication: the order of the registry, the list of unsupported branches and the reading of the publication files.
- `execution_plans` and the weekly rows built from it: a plain expansion of each plan.
- ScanTradeHistory: the strategy's and thesis rules are parameters of the bar and the trade's entry; decision texts are not modelled.
- PrepareEnrichedFrames: enrichment is a parameter that keeps the frame's symbol.
- CompileRowsInOrder: compiling one row is a parameter that keeps its id and its enabled flag; an exception other than the two it catches ends the compilation.
- Quote timestamp lineage, excursion coverage, the bar store, the schedule status scan, column letters, `_deep_merge` and `_slugify`: self-contained and easier than the above.
