# A verified model of the trading runtime

This project models the parts of the trading runtime in which several components have to agree, and proves what they
promise each other. `dafny verify dfyconfig.toml` checks everything.

**Live settlement.** Two sources describe the same fills. Realtime notices send increments; the REST inquiry sends
cumulative snapshots with averages. Three stores must agree on them: the OMS order states, the set of consumed execution
ids and the signed live position. `OrderStateMachine`, `LivePosition`, `Settlement`, `ExecutionReports`,
`RecoveryService` and `OrderRouting` hold the components, each class proved against a function on values.
`RecoveryAgreement` says which responses are accepted and what a recovery means, in terms of the broker's rows.
`SettlementRuns` is the step relation over routing, acknowledgements, notices, recoveries, held-back reports and
replays; `SettlementSafety` has the theorems over all runs. `BrokerFills` holds the OMS against the broker's own
sequence of fills, of which notices are the elements and snapshots the prefixes.

**Pre-trade risk.** `RiskEngine` is the evaluation; `RiskPrediction` shows that its predicted position is the one the
live position engine produces, and what an approval bounds.

**Decisions and identities.** `DecisionArbiter` is the sort and the claim loop with their declarative meaning;
`RuntimeIdentity` and `DecisionPipeline` follow signal ids and client order ids from evaluations to commands.

**Live lifecycle.** `LifecycleCoordinator` cuts `start`, `stop` and `receive` at their awaits, so that everything
between two awaits is one method; `LifecycleRuns` interleaves any number of coordinators, receives and commands, one
command at a time per coordinator, over the shared registry of transports.

**Simulated account, calendar, strategies.** `VirtualAccount` and `VirtualConservation` (profit is cash flow),
`TradingCalendar` (trading days and expiries), `Track3`, `Track3Runs`, `Track3Rules` and `Track5` (position machines
over all runs, and each of their decisions said of its inputs).

## What turned out to need a condition

Each of these is a theorem with its condition, beside a counterexample or a converse.

* Settlement consumes the id and moves the OMS before the fill adapter can refuse. It is all-or-nothing exactly when the
  registered command names the position's instrument with a tradable side and the report has a positive price
  (`SettleAllOrNothing`). A fill of an order routed for another instrument is such a case
  (`MisroutedFillIsPartial`, `PartialSettlementIsReachable`).
* "FILLED means filled" is not checked by `apply_execution`; it is kept exactly when the report's status agrees with its
  remaining quantity (`ExecutionKeepsStatus`). Both adapters build such reports.
* An order acknowledged again under another broker id can still be found under the old id, but rows for the old id are
  refused at settlement (`RowOfOldBrokerIdIsRefused`). An accepted response settles exactly when every order that one of
  its rows finds ahead of the OMS is named by its current id and has a command that fits
  (`AcceptedResponseSettlesExactly`).
* A snapshot and a notice of the same fill carry different ids, and a notice is built against the present count, so
  neither the ids nor the remaining quantity keep them apart. The OMS counts exactly the fills it has been told of if
  and only if no notice is settled for a fill already told of and no snapshot is settled that misses one
  (`SourcesAgreeExactly`). A late notice is counted twice, from the start (`LateNoticeIsCountedTwice`,
  `DoubleCountIsReachable`); an outdated snapshot takes a fill back out of the count (`OutdatedSnapshotForgetsAFill`).
* An approval can exceed the free margin: after a reduction the engine recomputes the margin and does not compare it
  again. The approvals of an order fit in every account unless it may be reduced and costs more per unit in a smaller
  size than in the one the instrument limit leaves (`ApprovalsFitExactly`). An account is never overrun, whatever the
  margin function, unless its limit on the ratio admits more than is free and the order can be reduced
  (`AccountFitsExactly`). Both are if-and-only-if.
* The first adapter looks for an option's symbol and expiry, the second for ones that are not blank. Every approved
  signal becomes a command if and only if no approved option has a blank one; otherwise the tick's commands are all lost
  (`ApprovedSignalsAreBuildable`, `BlankSymbolIsLost`).
* A restarted coordinator does not claim its transport again, so two coordinators can receive from one transport. They
  never do if neither was started after its release or released under its own receives (`OneReceiverPerTransport`). Any
  coordinator that was stopped can come back to a transport taken since, and one that was interrupted under its receives
  shares it with the next one built (`StoppedCoordinatorCanCollide`, `CollisionIsReachable`,
  `UndercutCoordinatorCollides`).
* Ownership is released with receives in flight if and only if an exception that no handler catches (such as
  `KeyboardInterrupt`) ends a wait of `stop` before a failure to close was recorded, and the calls of its `finally`
  block succeed (`ReleasedUnderReceiversExactly`).
* `restart_live` is two commands under one lock: its stop can release the transport and its start then end in a terminal
  state (`RestartCanReleaseAndFail`).
* A simulated execution that over-closes is accounted for only up to the held quantity; the reported trade is fully
  accounted for exactly if it does not over-close (`AccountedForUnlessOverClosing`).
* Track5 brackets every position if and only if its `z_threshold` is positive (`BracketNeedsPositiveThreshold`).
* Track3 drops a position without a signal when the date changes (`EntriesAreAccountedFor`). It enters beyond its own
  stop exactly when the z-score is at least the stop threshold away, which no configuration prevents, and is stopped out
  by the next evaluation that finds the spread unmoved exactly then (`EntryBeyondStopExactly`,
  `EntryBeyondStopIsPossible`, `UnmovedEntryIsStoppedExactly`).
* Track3 closes with one unit whatever it entered with: the close covers the group if and only if that was not entered
  with two (`CloseCoversGroupExactly`).
* What the instrument limit leaves of an order is as much as the limit admits if and only if the order does not oppose
  the position; the engine does not count what the order closes (`ReductionIsLargestExactly`).

## Model

| member | source | states |
|---|---|---|
| OrderStates.OrderStateMachine.ApplyIntent | core/oms/oms_fsm.py:42-56 | the new state of the two dictionaries, or the error with nothing changed |
| OrderStates.OrderStateMachine.RegisterBrokerOrderCommand | core/oms/oms_fsm.py:58-86 | the command is recorded and nothing else, or the error with nothing changed |
| OrderStates.OrderStateMachine.ApplyAck | core/oms/oms_fsm.py:88-121 | status and binding after an acknowledgement, or the error with nothing changed |
| OrderStates.OrderStateMachine.ApplyExecution | core/oms/oms_fsm.py:165-212 | cumulative quantity, status and weighted average after a fill, or the error with nothing changed |
| OrderStates.OrderStateMachine.ResolveExecutionCorrelation | core/oms/oms_fsm.py:123-145 | what a broker id correlates to, and each way it can fail |
| OrderStates.OrderStateMachine.GetBrokerOrderCommand | core/oms/oms_fsm.py:147-163 | the command behind a broker id, and each way it can fail |
| OrderStates.IntentKeeps | core/oms/oms_fsm.py:42-56 | consistency of all orders is kept and no fill, binding or finished order changes |
| OrderStates.RegisterKeeps | core/oms/oms_fsm.py:58-86 | as above; a command cannot be replaced once its order has filled |
| OrderStates.AckKeeps | core/oms/oms_fsm.py:88-121 | as above; a broker id is never rebound to another client |
| OrderStates.ExecutionKeeps | core/oms/oms_fsm.py:165-212 | fills stay between 0 and the order quantity and are never taken back; finished orders stay |
| OrderStates.ExecutionKeepsStatus | core/oms/oms_fsm.py:165-212 | FILLED keeps meaning filled exactly when the report's status agrees with its remaining quantity |
| OrderStates.IntentIsTakenExactly | core/oms/oms_fsm.py:42-56 | which intents are taken, and the one empty submitted order they leave |
| OrderStates.AckDecides | core/oms/oms_fsm.py:88-121 | which acknowledgements are taken; accepting binds the id and leaves ACKED, declining binds nothing and leaves REJECTED, and nothing else of any order changes |
| OrderStates.ExecutionIsTakenExactly | core/oms/oms_fsm.py:165-188 | which executions are taken |
| OrderStates.ExecutionFillsItsOrder | core/oms/oms_fsm.py:189-212 | it fills its order by its quantity, carries the notional of both into the average, and touches no other order |
| OrderStates.CommandIsFetchedExactly | core/oms/oms_fsm.py:147-163 | a broker id fetches the command of the order that goes by it now, and no other |
| OrderStates.CorrelationIsResolvedExactly | core/oms/oms_fsm.py:123-145 | a broker id resolves exactly while its order is open, to that order and what it has filled |
| OrderStates.BrokerIdsAreUnambiguous | core/oms/oms_fsm.py:103-110 | two bound orders never share a broker id, and each one's command is fetched by its own id |
| LivePosition.LivePositionAggregate.ApplyFill | environments/live/position/live_position_aggregate.py:28-62 | side, quantity and average after a fill, or the error with nothing changed |
| LivePosition.FillMovesPosition | environments/live/position/live_position_aggregate.py:28-62 | a fill is taken exactly if well formed, and moves the signed quantity by the signed fill |
| LivePosition.FillConservesCost | environments/live/position/live_position_aggregate.py:39-62 | carried cost changes by the fill's notional plus what it realises, in all five branches |
| Settlement.ExecutionEventDeduplicator.Accept | environments/live/execution/execution_event_deduplicator.py:12-21 | true exactly once per id, which it then remembers; refuses a missing id |
| Settlement.LivePositionFillAdapter.Apply | environments/live/position/live_execution_position_bridge.py:15-35 | applies exactly the fills that fit the command and the aggregate, in the order of the source's checks |
| Settlement.FillIsAppliedExactly | environments/live/position/live_execution_position_bridge.py:15-35 | which fills the adapter applies by itself, and how far they move the position |
| Settlement.LiveExecutionPositionBridge.SettleReport | environments/live/position/live_execution_position_bridge.py:54-101 | the three stores after settling one report, on every path |
| Settlement.AdmittedCommandIsOwn | environments/live/position/live_execution_position_bridge.py:76-92 | the command fetched by the report's broker id belongs to the report's own client |
| Settlement.SettleAllOrNothing | environments/live/position/live_execution_position_bridge.py:94-101 | all three stores advance by the same fill or none changes, exactly when the fill adapter has nothing to refuse |
| SettlementSafety.MisroutedFillIsPartial | environments/live/position/live_execution_position_bridge.py:94-101 | in any run, a noticed fill of an accepted order for another instrument consumes its id and fills the order, and the position stays behind |
| SettlementSafety.PartialSettlementIsReachable | environments/live/position/live_execution_position_bridge.py:94-101 | from the start there is such a run |
| Settlement.RefusedStaysUnconsumed | environments/live/position/live_execution_position_bridge.py:60-71 | a refused new report is still new afterwards |
| Settlement.ReplayIsIdempotent | environments/live/position/live_execution_position_bridge.py:60-70 | delivering a settled report again, at any later time, changes nothing |
| Settlement.RemainingQuantityIsAVersion | environments/live/position/live_execution_position_bridge.py:83-92 | a new report settles only into the very fill count it was built against; otherwise nothing changes |
| ExecutionReports.RealtimeReportsAreAdapterBuilt | environments/live/execution/kis_futures_execution_adapter.py:121-164 | a notice's report is built against exactly the OMS's fill count, with agreeing status |
| ExecutionReports.NoticeIsAcceptedExactly | environments/live/execution/kis_futures_execution_adapter.py:121-164 | the adapter accepts a notice if and only if it is an execution of some quantity at a price, of an open order with room for it; and the report it becomes |
| ExecutionReports.ContextIsOwn | environments/live/execution/kis_futures_execution_correlation_provider.py:21-27 | what a broker id resolves to is its own order's quantity, fills and average |
| ExecutionReports.RowReportIsAdapterBuilt | environments/live/execution/kis_futures_execution_recovery_adapter.py:89-130 | a row's report is the difference to the shadow, with agreeing status and a positive price |
| ExecutionReports.DeltaPriceInverts | environments/live/execution/kis_futures_execution_recovery_adapter.py:194-215 | integrating the differentiated price gives the cumulative average back |
| ExecutionReports.KISFuturesExecutionRecoveryAdapter.Normalize | environments/live/execution/kis_futures_execution_recovery_adapter.py:132-165 | the loop over rows and its three dictionaries computes `NormalizedReports`, errors included |
| ExecutionReports.KISFuturesExecutionRecoveryAdapter.ReadRow | environments/live/execution/kis_futures_execution_recovery_adapter.py:145-164 | one turn of that loop |
| ExecutionReports.NormalizedShadowsOms | environments/live/execution/kis_futures_execution_recovery_adapter.py:141-164 | the shadow starts at the OMS, only grows, stays within the order, and covers every report of the batch |
| ExecutionReports.AdapterBuiltIsStable | environments/live/execution/kis_futures_execution_adapter.py:139-164 | a report held back stays well built while orders go on |
| RecoveryService.LiveExecutionRecoveryService.RecoverResponse | environments/live/execution/live_execution_recovery_service.py:31-44 | everything is normalised first, then settled in order up to the first refusal |
| RecoveryService.LiveExecutionRecoveryService.SettleReports | environments/live/execution/live_execution_recovery_service.py:44 | the reports are settled in order; the first one that raises ends the batch |
| RecoveryService.RecoverySettles | environments/live/execution/kis_futures_execution_recovery_adapter.py:132-165 | any accepted batch, however orders interleave, settles exactly if every advancing order is settleable, and then the OMS equals the shadow |
| RecoveryService.SnapshotIsFresh | environments/live/execution/kis_futures_execution_recovery_adapter.py:217-219 | the next snapshot of an order is beyond every snapshot consumed |
| RecoveryAgreement.RecoveryAgreesWithBroker | environments/live/execution/live_execution_recovery_service.py:31-44 | each named order ends at its last row's quantity and its last advancing row's average; all others are untouched |
| RecoveryAgreement.AcceptedResponseSettlesExactly | environments/live/execution/live_execution_recovery_service.py:31-44 | an accepted response settles if and only if every order that a row finds ahead of the OMS is settleable |
| RecoveryAgreement.ResponseIsAcceptedExactly | environments/live/execution/kis_futures_execution_recovery_adapter.py:89-165 | normalisation accepts a response if and only if each row, from the OMS and the rows before it, names an open order, neither goes back nor exceeds it, and prices its advance |
| RecoveryAgreement.RecoverySucceedsExactly | environments/live/execution/live_execution_recovery_service.py:31-44 | recovery succeeds if and only if moreover every order found ahead of the OMS is settleable |
| RecoveryAgreement.ShadowEqualsOmsThroughout | environments/live/execution/kis_futures_execution_recovery_adapter.py:141-164 | the same after every prefix of the rows |
| RecoveryAgreement.RecoveringAgainChangesNothing | environments/live/execution/live_execution_recovery_service.py:43-44 | recovering the same response again reports nothing or is refused up front, and changes no store |
| OrderRouting.OMSCommandRegisteringBroker.Submit | application/composition/live_execution_runtime_composition_factory.py:34-36 | the exact command is registered before it is sent |
| OrderRouting.StandardOrderRouter.RegisterAndRoute | core/oms/order_router.py:21-42 | OMS and response after intent, submission and acknowledgement, on every failing path too |
| OrderRouting.RouteKeeps | core/oms/order_router.py:29-42 | however far a route gets, what it leaves behind is consistent |
| OrderRouting.AcceptedRouteBinds | core/oms/order_router.py:29-42 | an accepted route binds the broker id to this client and to exactly this command |
| OrderRouting.RouteSucceedsExactly | core/oms/order_router.py:21-42 | a route succeeds if and only if it is approved, its command can be registered and the reply answers it |
| OrderRouting.DeclinedRouteRejects | core/oms/order_router.py:29-42 | a declined route leaves its order rejected with its command, binds no id and touches no other order |
| OrderRouting.FailedRouteLeaves | core/oms/order_router.py:21-42 | a failed route leaves no acknowledgement; the command is on record exactly if it could be registered |
| SettlementRuns.StepKeepsInvariant | environments/live/position/live_execution_position_bridge.py:54-101 | every step of the protocol keeps the agreement of the three stores |
| SettlementSafety.PositionIsTheSumOfFills | environments/live/position/live_execution_position_bridge.py:94-101 | in every run the signed position is the sum over orders of side times filled quantity |
| SettlementSafety.PositionIsTheSumOfAllFills | environments/live/position/live_execution_position_bridge.py:94-101 | over all orders, if every command names the instrument |
| SettlementSafety.CostsAgree | core/oms/oms_fsm.py:190-201 | in every run, average times fills is the notional of an order's settled reports, and the position's cost is the notional of all orders plus the profit realised by closing, which is none while fills are one-sided |
| SettlementSafety.FillsStayWithinOrders | core/oms/oms_fsm.py:165-212 | in every run 0 <= filled <= quantity, 0 before the first execution, FILLED exactly when equal |
| SettlementSafety.TheSettledPastStays | core/oms/oms_fsm.py:67-102 | FILLED and REJECTED are absorbing, bindings never move, the command of a filled order is frozen |
| SettlementSafety.DeclinedForGood | core/oms/oms_fsm.py:94-121 | in every run a declined order is rejected, unfilled, for good, and no later acknowledgement of it is taken |
| SettlementSafety.BrokerIdsStayUnambiguous | core/oms/oms_fsm.py:103-110 | in every run two bound orders have different broker ids |
| SettlementSafety.StaleReportsAreRefused | environments/live/position/live_execution_position_bridge.py:83-92 | a report delivered late settles only if its order has not moved; otherwise it stays unconsumed |
| SettlementSafety.NothingIsSettledTwice | environments/live/execution/execution_event_deduplicator.py:12-24 | no execution id is settled twice in any run |
| SettlementSafety.NoticeSettlesExactly | environments/live/execution/kis_futures_execution_consumer.py:30-42 | in every run an accepted notice moves all three stores if and only if its frame is new and its order settleable, and by how much |
| SettlementSafety.SnapshotsAreFresh | environments/live/execution/kis_futures_execution_recovery_adapter.py:217-219 | every report a recovery emits is unseen, and its batch repeats no id |
| SettlementSafety.RecoveryInAnyRun | environments/live/execution/live_execution_recovery_service.py:31-44 | the recovery theorems in every reachable state |
| SettlementSafety.RowOfOldBrokerIdIsRefused | core/oms/oms_fsm.py:103-121 | from the start: after a second acknowledgement under a new id, a row for the old id normalises but does not settle |
| BrokerFills.SourcesAgreeExactly | environments/live/position/live_execution_position_bridge.py:83-100 | in every run of truthful reports the OMS counts at every moment exactly the broker fills it was told of, if and only if no notice came late and no snapshot was outdated |
| BrokerFills.NothingIsCountedTwice | environments/live/execution/execution_event_deduplicator.py:12-21 | while no notice comes late it never counts more than it was told of nor more than there is; with no outdated snapshot, only then |
| BrokerFills.LateNoticeIsCountedTwice | environments/live/execution/kis_futures_execution_recovery_adapter.py:89-130 | in any run, a snapshot of a fill followed by the notice of that fill are both settled, and the order stands at twice the fill |
| BrokerFills.DoubleCountIsReachable | environments/live/execution/kis_futures_execution_recovery_adapter.py:89-130 | from the start, with all reports true, an accepted order is counted beyond its true fills |
| BrokerFills.OutdatedSnapshotForgetsAFill | environments/live/execution/kis_futures_execution_recovery_adapter.py:89-130 | in any run, the notice of a second fill followed by a snapshot of the first are both settled, and the order stands at the first alone |
| RiskEngines.RiskEngine.RecordRealizedLoss | core/risk/risk_engine.py:53-57 | only losses count, and the recorded loss never falls |
| RiskEngines.RiskEngine.EvaluateOrder | core/risk/risk_engine.py:87-146 | decision, quantity, margin and ratio of an evaluation, branch by branch |
| RiskEngines.RiskGate.AdmitOrder | core/risk/risk_engine.py:148-158 | admits exactly the approved orders and keeps the evaluation |
| RiskPrediction.PredictionIsExact | core/risk/risk_engine.py:63-85 | the prediction is side and size after folding any split of the order into fills |
| RiskPrediction.ApprovedOrderKeepsLimit | core/risk/risk_engine.py:104-119 | from within the limit, every intermediate position of an approved order is within it, through zero too |
| RiskPrediction.CapacityIsExact | core/risk/risk_engine.py:63-119 | what the instrument limit leaves of an order, from the signed position alone |
| RiskPrediction.ReductionIsLargestExactly | core/risk/risk_engine.py:106-119 | a reduction to the limit leaves as much as the limit admits if and only if the order does not oppose the position |
| RiskPrediction.EvaluationIsExact | core/risk/risk_engine.py:87-146 | every evaluation: which obstacle denies an order, or for which quantity it is approved, from the position and the account alone |
| RiskPrediction.DenialIsEmpty | core/risk/risk_engine.py:87-146 | a denial approves nothing and has a reason; exactly an approval is signed |
| RiskPrediction.ApprovalIsBounded | core/risk/risk_engine.py:87-146 | 0 < approved <= original <= maximum order quantity, and the margin ratio is within its limit |
| RiskPrediction.ApprovalsFitExactly | core/risk/risk_engine.py:104-136 | for every order, its approvals fit the free margin of every account if and only if no reduction leads to a size that costs more per unit |
| RiskPrediction.AccountFitsExactly | core/risk/risk_engine.py:104-136 | for every account, approvals fit its free margin under every margin function if and only if the free margin covers its limit on the ratio or the order cannot be reduced |
| RiskPrediction.ApprovalFitsFreeMargin | core/risk/risk_engine.py:120-136 | required margin fits the free margin if no order smaller than what capacity leaves costs more per unit |
| RiskPrediction.RisingUnitMarginOverruns | core/risk/risk_engine.py:125-132 | where one does, the account in which it is approved beyond the free margin |
| RiskPrediction.LinearReductionIsExact | core/risk/risk_engine.py:104-146 | with linear margin an order is approved exactly for min(capacity, floor(free / unit)), under exactly these conditions |
| RiskPrediction.ProjectionOnlyReduces | core/oms/risk_approved_broker_command_adapter.py:12-33 | projection accepts exactly the positive reductions of the same order and changes nothing but the quantity |
| RiskPrediction.ApprovalIsRouted | core/oms/risk_approved_broker_command_adapter.py:22-33 | every approval projects onto its broker command at the approved quantity |
| Decisions.DecisionArbiter.Arbitrate | core/decision/decision_arbiter.py:54-108 | the loop over the sorted signals computes the claims, approvals, rejections and clash records |
| Decisions.SortKeeps | core/decision/decision_arbiter.py:67-74 | the sorted signals are a permutation in ascending key order |
| Decisions.ArbitrationMeaning | core/decision/decision_arbiter.py:76-102 | approved and rejected partition the input; of the signals with one asset type, strike and option type the one that goes first decides, by its own fields, and any of the other side is rejected for it |
| Decisions.KeyOrdersByFields | core/decision/decision_arbiter.py:10-74 | the sort key puts the better rank first (hedges, then the listed tracks, then any other), then the larger quantity, then the id spelled first |
| Decisions.ArbitrationComesInTurn | core/decision/decision_arbiter.py:67-102 | approved and rejected signals each come in that order |
| Decisions.RejectionsAreRecorded | core/decision/decision_arbiter.py:87-100 | every rejection has its clash record, naming instrument, kept and rejected |
| Decisions.LeaderExists | core/decision/decision_arbiter.py:78-85 | every instrument with a signal has one that goes first |
| Decisions.ArbitrationIgnoresOrder | core/decision/decision_arbiter.py:67-108 | any permutation of the input is arbitrated alike |
| RuntimeIdentity.StripIsIdempotent | core/runtime/runtime_execution_context.py:22-29 | stripping a track twice is stripping it once, for all whitespace that Python strips |
| RuntimeIdentity.IdsAreInjective | core/runtime/runtime_execution_context.py:21-33 | both ids are injective in tick, stripped track and ordinal, whatever hyphens the track has |
| DecisionPipeline.CollectedIdsAreDistinct | application/composition/runtime_strategy_result_collection_adapter.py:22-49 | evaluations collected for one context in one tick have distinct signal ids |
| DecisionPipeline.CollectedInOrder | application/composition/runtime_strategy_result_collection_adapter.py:22-49 | one evaluation per signal, in order, numbered from 1 |
| DecisionPipeline.RuntimeStrategyToDecisionAdapter.Arbitrate | core/strategy/orchestrator.py:255-300 | succeeds exactly if all signals convert and no id repeats; then one canonical signal each, arbitrated |
| DecisionPipeline.TickIsAcceptedExactly | core/strategy/orchestrator.py:255-300 | from the evaluations alone: every one has a track and is well proposed, and no two come from the same tick, track and ordinal |
| DecisionPipeline.ConversionIsExact | core/strategy/orchestrator.py:170-240 | which signals convert, and that ids, price and time are passed on |
| DecisionPipeline.RuntimeDecisionCommandAdapter.BuildCommands | core/strategy/orchestrator.py:315-348 | succeeds exactly if tracks and ids are sound and each approved signal has its evaluation and lacks no part; then one command each, in order |
| DecisionPipeline.CommandCarriesProposal | core/runtime/reference_execution_pipeline.py:143-181 | across both conversions the command orders what the strategy proposed, on the option it was resolved to |
| DecisionPipeline.CommandIsBuiltExactly | core/runtime/reference_execution_pipeline.py:143-181 | which approved signals become commands |
| DecisionPipeline.CommandsHaveDistinctIds | core/strategy/orchestrator.py:330-348 | distinct approved signals get distinct client order ids |
| DecisionPipeline.ApprovedSignalsAreBuildable | core/strategy/orchestrator.py:255-348 | whatever the first adapter lets through, the second builds if and only if no approved option has a blank symbol or expiry |
| DecisionPipeline.BlankSymbolIsLost | core/runtime/reference_execution_pipeline.py:160-167 | an option with a blank symbol converts and is approved, and then no list of approved signals containing it can be built |
| LifecycleCoordinators.LiveRuntimeLifecycleCoordinator.ReleaseTransportOwnership | application/composition/live_runtime_lifecycle_coordinator.py:43-46 | the callback is dropped exactly when it has returned |
| LifecycleCoordinators.LiveRuntimeLifecycleCoordinator.Terminate | application/composition/live_runtime_lifecycle_coordinator.py:72-74 | the shape of every terminal state: not started, stopping |
| LifecycleCoordinators.LiveRuntimeLifecycleCoordinator.StopAndRelease | application/composition/live_runtime_lifecycle_coordinator.py:79-96 | controller stop, then release, each failure ending in its own terminal state |
| LifecycleCoordinators.LiveRuntimeLifecycleCoordinator.Start | application/composition/live_runtime_lifecycle_coordinator.py:56-66 | admission and preparation, up to the first await |
| LifecycleCoordinators.LiveRuntimeLifecycleCoordinator.ResumeStart | application/composition/live_runtime_lifecycle_coordinator.py:66-132 | what follows each outcome of the two awaits of `start` |
| LifecycleCoordinators.LiveRuntimeLifecycleCoordinator.Stop | application/composition/live_runtime_lifecycle_coordinator.py:184-221 | the stop of a stopped runtime, the timeouts, and the way into the first await |
| LifecycleCoordinators.LiveRuntimeLifecycleCoordinator.ResumeStop | application/composition/live_runtime_lifecycle_coordinator.py:219-290 | what follows each outcome of the four awaits of `stop`, `finally` block included |
| LifecycleCoordinators.LiveRuntimeLifecycleCoordinator.BeginReceive | application/composition/live_runtime_lifecycle_coordinator.py:134-142 | a receive is counted exactly if the runtime is started and not stopping |
| LifecycleCoordinators.LiveRuntimeLifecycleCoordinator.EndReceive | application/composition/live_runtime_lifecycle_coordinator.py:145-150 | it is counted off, and the last one sets the drain event |
| LifecycleCoordinators.LiveExecutionTransportOwnershipRegistry.Claim | application/composition/live_runtime_production_factory.py:27-34 | a claim succeeds exactly if the transport is free |
| LifecycleCoordinators.LiveExecutionTransportOwnershipRegistry.Release | application/composition/live_runtime_production_factory.py:36-40 | a release takes back its own claim only |
| LifecycleRuns.RunsKeepInvariant | application/composition/live_runtime_lifecycle_coordinator.py:48-150 | in every run flags, command and state fit together and the registry agrees with all coordinators |
| LifecycleRuns.CoordinatorShapes | application/composition/live_runtime_lifecycle_coordinator.py:48-54 | terminal implies not started, stopping and no command; otherwise running or restartable; the drain event means no receive |
| LifecycleRuns.StopBeginsExactly | application/composition/live_runtime_lifecycle_coordinator.py:184-221 | when a stop goes on to close the execution, and how it ends at once otherwise |
| LifecycleRuns.StopEndsExactly | application/composition/live_runtime_lifecycle_coordinator.py:219-290 | in every run, whether a stop goes on and what it ends in, from how its awaits have ended alone |
| LifecycleRuns.FailedCloseIsFinal | application/composition/live_runtime_lifecycle_coordinator.py:223-269 | in every run, once `close_execution` has failed under a stop, ownership stays and only a terminal state can follow, whatever happens |
| LifecycleRuns.StartBeginsExactly | application/composition/live_runtime_lifecycle_coordinator.py:56-66 | when a start goes on to start the execution |
| LifecycleRuns.StartEndsExactly | application/composition/live_runtime_lifecycle_coordinator.py:66-132 | in every run, what a start ends in, from how its awaits have ended alone |
| LifecycleRuns.ReceivesAreCounted | application/composition/live_runtime_lifecycle_coordinator.py:134-150 | in every run the count is the number of receives in flight |
| LifecycleRuns.ReleasedUnderReceiversExactly | application/composition/live_runtime_lifecycle_coordinator.py:219-279 | in every run, which events release ownership with receives in flight, as an if-and-only-if |
| LifecycleRuns.OwnershipEndsQuietly | application/composition/live_runtime_lifecycle_coordinator.py:252-283 | ownership is given up only by a start or stop that ends without a terminal state, with no receive in flight save for that case, and the registry forgets it |
| LifecycleRuns.LaterRunsFollow | application/composition/live_runtime_lifecycle_coordinator.py:48-58 | terminal states absorb start, stop and receive; ownership given up is never regained |
| LifecycleRuns.ReleasedAtMostOnce | application/composition/live_runtime_lifecycle_coordinator.py:43-46 | a coordinator gives up ownership once, exactly when its callback is gone |
| LifecycleRuns.UndercutMeansReleasedUnderReceivers | application/composition/live_runtime_lifecycle_coordinator.py:219-279 | the history that the next row speaks of is exactly: some event released ownership under receives in flight |
| LifecycleRuns.OneReceiverPerTransport | application/composition/live_runtime_production_factory.py:19-42 | two coordinators never receive from one transport unless one of the two was started after its release or released under its own receives |
| LifecycleRuns.StoppedCoordinatorCanCollide | application/composition/live_runtime_lifecycle_coordinator.py:43-58 | any stopped coordinator can come back to a transport taken since |
| LifecycleRuns.CollisionIsReachable | application/composition/live_runtime_lifecycle_coordinator.py:43-58 | from the start there is such a run |
| LifecycleRuns.InterruptedStopReleasesUnderReceivers | application/composition/live_runtime_lifecycle_coordinator.py:219-279 | in any run, an uncaught exception while `stop` waits releases under the receivers, and the transport is free |
| LifecycleRuns.UndercutCoordinatorCollides | application/composition/live_runtime_lifecycle_coordinator.py:219-279 | and the next coordinator built on that transport receives beside them |
| LifecycleRuns.RestartCanReleaseAndFail | interfaces/control_tower/live_runtime_api.py:54-63 | a restart can release in its stop and fail for good in its start |
| LifecycleRuns.CommandsEnd | interfaces/control_tower/live_runtime_api.py:39-63 | every command under the lock comes to an end, after six awaits at most |
| VirtualAccounts.PositionManager.UpdatePosition | environments/virtual/market/reference_vms_market.py:26-42 | positions and realised profit after one execution, division by zero included |
| VirtualAccounts.PnLEngine.CalculateUnrealized | environments/virtual/market/reference_vms_market.py:59-75 | the sum over positions in any order is the book's total marked at the price |
| VirtualAccounts.PnLEngine.AddRealized | environments/virtual/market/reference_vms_market.py:77-79 | realised profit accumulates |
| VirtualAccounts.MarginEngine.CalculateUsedMargin | environments/virtual/market/reference_vms_market.py:100-109 | the sum over positions in any order is the total cost |
| VirtualAccounts.PaperTradingAccount.UpdateTickPrice | environments/virtual/market/reference_vms_market.py:171-175 | unrealised profit, used and free margin at a price |
| VirtualAccounts.PaperTradingAccount.ApplyExecution | environments/virtual/market/reference_vms_market.py:177-187 | positions, realised profit and balance after an execution |
| VirtualAccounts.VirtualSecuritiesFirmRuntime.ProcessMarketData | environments/virtual/market/reference_vms_market.py:289-292 | quotes taken, account marked at the underlying |
| VirtualAccounts.VirtualSecuritiesFirmRuntime.ProcessOrder | environments/virtual/market/reference_vms_market.py:294-305 | declined, failed or executed in full at the quote and marked there |
| VirtualAccounts.UpdateMovesBook | environments/virtual/market/reference_vms_market.py:26-42 | the book gains what took effect at its price and loses the cost of what was realised |
| VirtualConservation.ExecutionConservesEquity | environments/virtual/market/reference_vms_market.py:177-187 | marked at its own price an execution costs its fee and nothing else, however it nets |
| VirtualConservation.ExecutionEarnsFromItsPrice | environments/virtual/market/reference_vms_market.py:26-42 | at any mark it earns what its effective part earns from its price on |
| VirtualConservation.ExecutionFailsOn | environments/virtual/market/reference_vms_market.py:28-30 | an execution fails exactly if adding would leave quantity zero |
| VirtualConservation.OrderConservesEquity | environments/virtual/market/reference_vms_market.py:294-305 | an executed order reports the equity it found, remarked at the execution price; any other changes nothing |
| VirtualConservation.OrderIsExecutedAsCommanded | environments/virtual/market/reference_vms_market.py:294-305 | exactly when an order is declined or fails; otherwise symbol, side and full quantity are the command's and only its symbol moves |
| VirtualConservation.MarginIsUsedByEach | environments/virtual/market/reference_vms_market.py:100-109 | each position uses margin for what it cost, on either side |
| VirtualConservation.NewAccountReports | environments/virtual/market/reference_vms_market.py:146-160 | a new account reports its capital as equity and free margin |
| VirtualConservation.NoEmptyPositions | environments/virtual/market/reference_vms_market.py:35-42 | in no run is a position of quantity zero held |
| VirtualConservation.ProfitIsCashFlow | environments/virtual/market/reference_vms_market.py:26-79 | over any run, profit at any mark is the multiplier times (sells - buys + net quantity * price) of what took effect |
| VirtualConservation.AccountedForUnlessOverClosing | environments/virtual/market/reference_vms_market.py:35-42 | the reported trade is accounted for at every mark exactly if it does not over-close |
| VirtualConservation.ReportedProfit | environments/virtual/market/reference_vms_market.py:26-79 | over runs without over-closing the formula holds for the executions as reported |
| VirtualConservation.MarkedAccountReports | environments/virtual/market/reference_vms_market.py:163-175 | the reported equity and free margin after a tick |
| TradingCalendar.ProductionTradingCalendar.PrevTradingDay | infrastructure/kis/trading_calendar.py:22-27 | the last trading day before a date, or an overflow exactly if there is none |
| TradingCalendar.ProductionTradingCalendar.TradingDaysBetween | infrastructure/kis/trading_calendar.py:29-42 | the signed number of trading days after one date up to the other |
| TradingCalendar.LatestIsGreatest | infrastructure/kis/trading_calendar.py:22-27 | the search's result is the greatest trading day of its range |
| TradingCalendar.TradingDaysAddUp | infrastructure/kis/trading_calendar.py:29-42 | additive over any three dates in any order, and antisymmetric |
| TradingCalendar.PreviousDayIsOneBack | infrastructure/kis/trading_calendar.py:22-42 | stepping back crosses no trading day but the one stepped from |
| TradingCalendar.TradingDaysAreWeekdays | infrastructure/kis/trading_calendar.py:19-20 | trading days are all days but Saturdays, Sundays and holidays |
| TradingCalendar.WalkBack | core/option/option_master.py:77-78 | the loop ends at the last trading day not after its target |
| TradingCalendar.CalculateMonthlyExpiry | core/option/option_master.py:71-79 | the last trading day not after the second Thursday, which is also the second week's expiry |
| TradingCalendar.CalculateWeeklyExpiry | core/option/option_master.py:82-92 | the last trading day not after the week's Thursday, clipped to the month |
| TradingCalendar.WeeklyTargetIsThursday | core/option/option_master.py:85-89 | the target is the one Thursday of that week of the month |
| TradingCalendar.WeeklyTargetIsExact | core/option/option_master.py:82-92 | which weeks have a target, and that it is the last day of a month that lacks the Thursday |
| TradingCalendar.ExpiryIsGreatestTradingDay | core/option/option_master.py:77-79 | no trading day up to the target is later than the expiry |
| TradingCalendar.ExpiryExistsExactly | infrastructure/kis/trading_calendar.py:22-27 | an expiry is found exactly if some trading day is not after the target |
| TradingCalendar.WeeksExpireInOrder | core/option/option_master.py:82-92 | later weeks expire no earlier, and on the same day exactly if no trading day lies between their targets |
| Track3.Track3StatisticalArbitrage.EvaluateInput | core/strategy/track3_statistical_arbitrage.py:215-231 | date, cooldown and validity, then entry or exit |
| Track3.Track3StatisticalArbitrage.EvaluateEntry | core/strategy/track3_statistical_arbitrage.py:233-285 | the entry gates in order, and the group that an entry opens |
| Track3.Track3StatisticalArbitrage.EvaluateExit | core/strategy/track3_statistical_arbitrage.py:287-321 | the exit rules in order |
| Track3.Track3StatisticalArbitrage.CloseGroup | core/strategy/track3_statistical_arbitrage.py:323-330 | the state and signal of a close |
| Track3.GroupIdsDiffer | core/strategy/track3_statistical_arbitrage.py:275 | ids of different sequence numbers differ as strings, whatever their dates |
| Track3Runs.ReachableGroups | core/strategy/track3_statistical_arbitrage.py:215-330 | a position exactly with a group id and two legs that carry it, held for less than the limit |
| Track3Runs.GroupsAreNeverReused | core/strategy/track3_statistical_arbitrage.py:274-283 | between resets no two entries get the same group id |
| Track3Runs.ClosedInTime | core/strategy/track3_statistical_arbitrage.py:287-308 | on one day a group sees fewer valid evaluations than the limit, and one at most if the limit is below 1 |
| Track3Runs.ReentryWaits | core/strategy/track3_statistical_arbitrage.py:228-260 | after a close with cooldown c no entry of that day for c - 1 calls, nor within 0.8 of the exit's z-score |
| Track3Runs.EntryIsJustified | core/strategy/track3_statistical_arbitrage.py:233-272 | every entry is on the side of its z-score, at least 1.5 away, before 15:00, outside extreme moves, and worth its cost |
| Track3Runs.FlatAfterMarketClose | core/strategy/track3_statistical_arbitrage.py:255-291 | from 15:15 on a valid evaluation leaves no position |
| Track3Runs.EntryBeyondStopExactly | core/strategy/track3_statistical_arbitrage.py:267-302 | an entry meets its own stop condition if and only if its z-score is at least the stop threshold away |
| Track3Runs.EntryBeyondStopIsPossible | core/strategy/track3_statistical_arbitrage.py:254-285 | for every configuration there is such an entry, from a reset |
| Track3Runs.UnmovedEntryIsStoppedExactly | core/strategy/track3_statistical_arbitrage.py:287-305 | an unmoved spread stops the entry out next if and only if it was entered there |
| Track3Runs.EntriesAreAccountedFor | core/strategy/track3_statistical_arbitrage.py:216-224 | every entry is closed once, dropped by a new date, or open |
| Track3Rules.RegimesAreTold | core/strategy/track3_statistical_arbitrage.py:143-161 | which regime an input is in, without division |
| Track3Rules.ExitsExactly | core/strategy/track3_statistical_arbitrage.py:287-330 | what becomes of a held group: its verdict, its close signal and the pause, or holding on |
| Track3Rules.HeldKeepsItsProfit | core/strategy/track3_statistical_arbitrage.py:294-308 | a group held on keeps 85% of a peak above 30000, is inside its stop and has time left |
| Track3Rules.EntersExactly | core/strategy/track3_statistical_arbitrage.py:215-285 | what becomes of a flat strategy: what keeps it out, or the group it enters |
| Track3Rules.InvalidOnlyWaits | core/strategy/track3_statistical_arbitrage.py:215-231 | an invalid z-score changes nothing but the day and the pause |
| Track3Rules.CloseCoversGroupExactly | core/strategy/track3_statistical_arbitrage.py:267-308 | the close asks for the entered quantity if and only if the group was not entered with two units |
| Track5.Track5GapDivergence.EvaluateGap | core/strategy/track5_gap_divergence.py:65-107 | which openings are taken, and the position they open |
| Track5.Track5GapDivergence.EvaluateMeanReversion | core/strategy/track5_gap_divergence.py:109-158 | the exits in order, the trailing state and the liquidity stages |
| Track5.Track5GapDivergence.EvaluateInput | core/strategy/track5_gap_divergence.py:160-167 | which of the two an input goes to |
| Track5.BracketNeedsPositiveThreshold | core/strategy/track5_gap_divergence.py:56-101 | target and stop are strictly on opposite sides of every entry if and only if the threshold is positive |
| Track5.RunsAreSound | core/strategy/track5_gap_divergence.py:65-158 | in every run an open position is bracketed and has seen fewer than thirty ticks |
| Track5.ClosedByThirtiethTick | core/strategy/track5_gap_divergence.py:114-134 | a position is closed by the thirtieth price tick after its entry |
| Track5.ClosesMean | core/strategy/track5_gap_divergence.py:116-145 | what each kind of close has won or lost |
| Track5.OpensExactly | core/strategy/track5_gap_divergence.py:65-107 | which openings are taken, from the size of the gap, and the position against it |
| Track5.TickIsAnsweredExactly | core/strategy/track5_gap_divergence.py:109-158 | what a price tick does to an open position, from what it has won |
| Track5.DailyDeviationIsYearly | core/strategy/track5_gap_divergence.py:51-54 | the unit of the gap is 15% a year over the root of 252 days |
| Track5.EntriesAreClosedOnce | core/strategy/track5_gap_divergence.py:109-158 | entries minus closes is the open position, in every run |
| Track5.LiquidityComesInStages | core/strategy/track5_gap_divergence.py:147-155 | at most two liquidity offers per position, in stages |

## Left out

Numbers and text:

- Prices, averages, margins and profits are exact reals: decimal context precision, float rounding, NaN and infinity are
  not modelled. A snapshot id holds the average's value, not its digits.
- Broker and client ids of the live path are tokens already stripped; the empty token stands for a missing or blank one.
  The acknowledgement's check for a missing broker id, which a blank one passes, therefore refuses both here.
- Sides, asset types and option types are members of their enumerations; the conversions' refusal of other text is not
  modelled.
- Error texts are codes; rejection reasons and clash texts are records of the values they print. The instrument key of
  arbitration is the triple it prints, so a strike given as 350 and as 350.0 is one strike here.
- Timestamps, data quality, group and leg ids of reports, the id and time of approval tokens, and the responses'
  message fields.

Live path:

- Parsing of frames and master files, the transports, authentication and paging: notices and the concatenated rows are
  inputs. The digest of a notice is the frame itself, so two frames never share an id.
- The realtime consumer is composed in the run relation from the correlation, the report and its settlement
  (environments/live/execution/kis_futures_execution_consumer.py:30-42); its own class is not modelled.
- The body of `normalize`'s loop and the loop over reports in `recover` are methods of their own.
- Arguments that the source has only as comments are restored as the surrounding code requires: the OMS constructor
  calls, the bridge's parameters and the Control Tower's `await`s.
- Against the broker's true fills only quantities are compared, not prices; what the broker fills and in which order is
  an arbitrary sequence.
- Position sources other than the live aggregate, and `current` risk positions with several entries beyond the lookup of
  `calculate_expected_position`.
- The arbiter's sort is a stable insertion sort; only its result matters.

Lifecycle:

- Awaits end as the run relation chooses: completed, failed, cancelled, timed out or interrupted. The event loop, the
  set of receive tasks that `stop` may cancel, and the checks that the controller object is still the same are not
  modelled.
- Between the stop and the start of a restart the source does not await; the run relation allows other coordinators to
  move there, which only makes its theorems stronger.
- A command that waits for the lock is a command that has not happened yet.

Simulated account, calendar, strategies:

- Execution ids, the transaction list, order cancellation, settlement records and snapshots of the simulated firm.
- Dates are day numbers; formatting and parsing of dates, and the provider that knows the holidays.
- Track3: the z-score, the deviation of the spread and the carry of option legs are inputs; reason texts of its signals.
- Track5: `stop_loss_pts`, which the strategy never reads; reason texts of its signals.
- Other tracks, strategy registration and the strategy run loop, option identity records, token caches, Control Tower
  views, logging and configuration files.
