/** REST recovery: normalise every row against the OMS, then settle the reports in order. */
module RecoveryService {
  import opened Contracts
  import opened OrderStates
  import opened LivePosition
  import opened Settlement
  import opened ExecutionReports

  datatype BatchOutcome = BatchOutcome(world: World, result: Result<seq<OrderState>, Error>)

  /** Settles reports in order; the first one that raises ends the batch. */
  function SettleAll(w: World, reports: seq<ExecutionReport>): (r: BatchOutcome)
    requires Sound(w)
    ensures Sound(r.world)
  {
    if reports == [] then BatchOutcome(w, Ok([]))
    else
      var before := SettleAll(w, reports[..|reports| - 1]);
      if before.result.Err? then before
      else
        var last := reports[|reports| - 1];
        SettleAllOrNothing(before.world, last);
        var settled := Settle(before.world, last);
        BatchOutcome(settled.world,
                     match settled.result
                     case Err(error) => Err(error)
                     case Ok(state) => Ok(before.result.value + [state]))
  }

  function Recover(w: World, response: Option<seq<Row>>): (r: BatchOutcome)
    requires Sound(w)
    ensures Sound(r.world)
  {
    match NormalizedReports(response, ContextsOf(w.oms))
    case Err(error) => BatchOutcome(w, Err(error))
    case Ok(reports) => SettleAll(w, reports)
  }

  lemma OneMore(w: World, reports: seq<ExecutionReport>, report: ExecutionReport)
    requires Sound(w) && SettleAll(w, reports).result.Ok?
    ensures var settled := Settle(SettleAll(w, reports).world, report);
            var batch := SettleAll(w, reports + [report]);
            batch.world == settled.world && (batch.result.Ok? <==> settled.result.Ok?)
  {
    var all := reports + [report];
    assert all[..|all| - 1] == reports;
  }

  lemma {:induction false} FailureEndsTheBatch(w: World, reports: seq<ExecutionReport>, k: nat)
    requires Sound(w) && k <= |reports| && SettleAll(w, reports[..k]).result.Err?
    ensures SettleAll(w, reports) == SettleAll(w, reports[..k])
    decreases |reports|
  {
    if k == |reports| {
      assert reports[..k] == reports;
    } else {
      assert reports[..|reports| - 1][..k] == reports[..k];
      FailureEndsTheBatch(w, reports[..|reports| - 1], k);
    }
  }

  class LiveExecutionRecoveryService {
    const adapter: KISFuturesExecutionRecoveryAdapter
    const bridge: LiveExecutionPositionBridge

    constructor (adapter: KISFuturesExecutionRecoveryAdapter, bridge: LiveExecutionPositionBridge)
      ensures this.adapter == adapter && this.bridge == bridge
    {
      this.adapter, this.bridge := adapter, bridge;
    }

    /** `response` is the concatenation of the pages that the inquiry returned. */
    method RecoverResponse(response: Option<seq<Row>>) returns (r: Result<seq<OrderState>, Error>)
      requires bridge.Assembled()
      modifies bridge.oms, bridge.dedup, bridge.position
      ensures bridge.Assembled()
      ensures BatchOutcome(bridge.Value(), r) == Recover(old(bridge.Value()), response)
    {
      var oms := Oms(bridge.oms.states, bridge.oms.brokerToClient);
      var normalised := adapter.Normalize(response, ContextsOf(oms));
      if normalised.Err? { return Err(normalised.error); }
      r := SettleReports(normalised.value);
    }

    method SettleReports(reports: seq<ExecutionReport>) returns (r: Result<seq<OrderState>, Error>)
      requires bridge.Assembled()
      modifies bridge.oms, bridge.dedup, bridge.position
      ensures bridge.Assembled()
      ensures BatchOutcome(bridge.Value(), r) == SettleAll(old(bridge.Value()), reports)
    {
      ghost var start := bridge.Value();
      var states: seq<OrderState> := [];
      for i := 0 to |reports|
        invariant bridge.Assembled()
        invariant SettleAll(start, reports[..i]) == BatchOutcome(bridge.Value(), Ok(states))
      {
        assert reports[..i + 1][..i] == reports[..i];
        var settled := bridge.SettleReport(reports[i]);
        if settled.Err? {
          FailureEndsTheBatch(start, reports, i + 1);
          return Err(settled.error);
        }
        states := states + [settled.value];
      }
      assert reports[..|reports|] == reports;
      return Ok(states);
    }
  }

  // ----- the shadow against the OMS -----

  /** A consumed snapshot identity is never ahead of the OMS. */
  ghost predicate SnapshotsBehind(w: World) {
    forall id :: id in w.seen && id.RestSnapshot? ==>
      && id.order in w.oms.brokerToClient
      && w.oms.brokerToClient[id.order] in w.oms.states
      && id.cumulative <= w.oms.states[w.oms.brokerToClient[id.order]].filledQuantity
  }

  /** Fills of this broker order number can be settled: it is its order's current one, and its command fits. */
  ghost predicate Settleable(w: World, order: string) {
    && order in w.oms.brokerToClient
    && w.oms.brokerToClient[order] in w.oms.states
    && var state := w.oms.states[w.oms.brokerToClient[order]];
       && state.brokerOrderId == order
       && state.command.Some?
       && state.command.value.instrumentId == w.position.instrumentId
       && Tradable(state.command.value.side)
  }

  /** Settling keeps everything about the orders but how far they have filled. */
  ghost predicate SameOrders(w: World, now: World) {
    && now.position.instrumentId == w.position.instrumentId
    && now.oms.brokerToClient == w.oms.brokerToClient
    && now.oms.states.Keys == w.oms.states.Keys
    && (forall client :: client in w.oms.states ==> SameOrder(w.oms.states[client], now.oms.states[client]))
  }

  ghost predicate SameOrder(before: OrderState, now: OrderState) {
    && now.orderQuantity == before.orderQuantity
    && now.command == before.command
    && now.brokerOrderId == before.brokerOrderId
    && now.filledQuantity >= before.filledQuantity
  }

  /** Order by order, the OMS holds what the shadow holds. */
  ghost predicate TracksOrder(w: World, now: World, shadow: Shadow, order: string)
    requires ShadowKeys(shadow) && order in shadow.contexts && Settleable(w, order) && SameOrders(w, now)
  {
    var state := now.oms.states[w.oms.brokerToClient[order]];
    && state.filledQuantity == shadow.cumulative[order]
    && state.averagePrice == shadow.average[order]
    && (state.filledQuantity < state.orderQuantity ==> state.status.ACKED? || state.status.PARTIALLY_FILLED?)
  }

  /** One order advances by the report, to the given average; nothing else about the OMS changes. */
  ghost predicate OrderAdvances(before: Oms, after: Oms, report: ExecutionReport, average: Option<real>) {
    var client := report.clientOrderId;
    && client in before.states
    && after.brokerToClient == before.brokerToClient
    && after.states.Keys == before.states.Keys
    && (forall other :: other in before.states && other != client ==> after.states[other] == before.states[other])
    && SameOrder(before.states[client], after.states[client])
    && after.states[client].filledQuantity == before.states[client].filledQuantity + report.filledQuantity
    && after.states[client].averagePrice == average
    && after.states[client].status
       == FillStatus(after.states[client].filledQuantity, after.states[client].orderQuantity)
  }

  ghost predicate Touched(w: World, shadow: Shadow, client: string) {
    exists order :: order in shadow.contexts && Settleable(w, order) && w.oms.brokerToClient[order] == client
  }

  ghost predicate OrdersTracked(w: World, now: World, shadow: Shadow)
    requires ShadowKeys(shadow) && SameOrders(w, now)
  {
    forall order :: order in shadow.contexts && Settleable(w, order) ==> TracksOrder(w, now, shadow, order)
  }

  ghost predicate OthersUntouched(w: World, now: World, shadow: Shadow)
    requires SameOrders(w, now)
  {
    forall client :: client in w.oms.states && !Touched(w, shadow, client) ==>
      now.oms.states[client] == w.oms.states[client]
  }

  ghost predicate OnlyBatchSeen(w: World, now: World, shadow: Shadow) {
    forall id :: id in now.seen ==>
      id in w.seen || exists report :: report in shadow.reports && report.executionId == id
  }

  ghost predicate Tracks(w: World, now: World, shadow: Shadow) {
    && ShadowKeys(shadow)
    && Sound(now)
    && SameOrders(w, now)
    && OrdersTracked(w, now, shadow)
    && OthersUntouched(w, now, shadow)
    && OnlyBatchSeen(w, now, shadow)
  }

  ghost predicate AllSettleable(w: World, reports: seq<ExecutionReport>) {
    forall report :: report in reports ==> Settleable(w, report.brokerOrderId)
  }

  /** The batch settles exactly if every order that advanced is settleable, and then the OMS holds the shadow. */
  ghost predicate BatchSettles(w: World, shadow: Shadow)
    requires Sound(w)
  {
    && (SettleAll(w, shadow.reports).result.Ok? <==> AllSettleable(w, shadow.reports))
    && (AllSettleable(w, shadow.reports) ==> Tracks(w, SettleAll(w, shadow.reports).world, shadow))
  }

  /**
    The heart of recovery. Rows of any orders in any interleaving that normalisation accepts settle
    without a single refusal if and only if every order that advanced is settleable. Then the OMS
    holds the shadow: for each settleable order its fill count and its average price.
   */
  lemma {:induction false} RecoverySettles(w: World, rows: seq<Row>)
    requires Sound(w) && SnapshotsBehind(w)
    requires Normalized(rows, ContextsOf(w.oms)).Ok?
    ensures BatchSettles(w, Normalized(rows, ContextsOf(w.oms)).value)
  {
    if rows != [] {
      var front := rows[..|rows| - 1];
      RecoverySettles(w, front);
      NormalizedShadowsOms(w.oms, front);
      NextRowSettles(w, Normalized(front, ContextsOf(w.oms)).value, rows[|rows| - 1]);
    }
  }

  lemma NextRowSettles(w: World, shadow: Shadow, row: Row)
    requires Sound(w) && SnapshotsBehind(w)
    requires ShadowsOms(w.oms, shadow) && BatchSettles(w, shadow)
    requires AfterRow(shadow, row, ContextsOf(w.oms)).Ok?
    ensures BatchSettles(w, AfterRow(shadow, row, ContextsOf(w.oms)).value)
  {
    BeginningShadowsOms(w.oms, shadow, row.orderNumber);
    BeginningSettles(w, shadow, row.orderNumber);
    KnownRowSettles(w, OpenOrder(shadow, row.orderNumber, ContextsOf(w.oms)).value, row);
  }

  lemma BeginningSettles(w: World, shadow: Shadow, order: string)
    requires Sound(w)
    requires ShadowsOms(w.oms, shadow) && BatchSettles(w, shadow)
    requires OpenOrder(shadow, order, ContextsOf(w.oms)).Ok?
    ensures BatchSettles(w, OpenOrder(shadow, order, ContextsOf(w.oms)).value)
  {
    if AllSettleable(w, shadow.reports) {
      BeginningTracks(w, SettleAll(w, shadow.reports).world, shadow, order);
    }
  }

  /** A row adds at most one report, at the end. */
  lemma KnownRowReports(shadow: Shadow, row: Row)
    requires ShadowKeys(shadow) && row.Row? && row.orderNumber in shadow.contexts
    requires AfterKnownRow(shadow, row).Ok?
    ensures var context := CurrentContext(shadow, row.orderNumber);
            && RowReport(row, context).Ok?
            && (match RowReport(row, context).value
                case None => AfterKnownRow(shadow, row) == Ok(shadow)
                case Some(report) => AfterKnownRow(shadow, row) == Ok(Advanced(shadow, report, row.average)))
  {
  }

  /** Two settleable broker ids of one order are the same id, so opening an order disturbs no other. */
  lemma BeginningTracks(w: World, now: World, shadow: Shadow, order: string)
    requires Sound(w) && ShadowsOms(w.oms, shadow) && Tracks(w, now, shadow)
    requires OpenOrder(shadow, order, ContextsOf(w.oms)).Ok?
    ensures Tracks(w, now, OpenOrder(shadow, order, ContextsOf(w.oms)).value)
  {
    var begun := OpenOrder(shadow, order, ContextsOf(w.oms)).value;
    if order !in shadow.contexts {
      ContextIsOwn(w.oms, order);
      if Settleable(w, order) {
        var client := w.oms.brokerToClient[order];
        assert !Touched(w, shadow, client);
        assert TracksOrder(w, now, begun, order);
      }
      forall other | other in begun.contexts && Settleable(w, other)
        ensures TracksOrder(w, now, begun, other)
      {
        assert other == order || TracksOrder(w, now, shadow, other);
      }
      forall client | client in w.oms.states && !Touched(w, begun, client)
        ensures now.oms.states[client] == w.oms.states[client]
      {
        assert !Touched(w, shadow, client);
      }
    }
  }

  lemma KnownRowSettles(w: World, shadow: Shadow, row: Row)
    requires Sound(w) && SnapshotsBehind(w) && ShadowsOms(w.oms, shadow)
    requires row.Row? && row.orderNumber in shadow.contexts
    requires AfterKnownRow(shadow, row).Ok?
    requires BatchSettles(w, shadow)
    ensures BatchSettles(w, AfterKnownRow(shadow, row).value)
  {
    KnownRowReports(shadow, row);
    var context := CurrentContext(shadow, row.orderNumber);
    if RowReport(row, context).value.Some? {
      var report := RowReport(row, context).value.value;
      assert ShadowsOrder(w.oms, shadow, row.orderNumber);
      RowReportIsAdapterBuilt(w.oms, row, context);
      if !AllSettleable(w, shadow.reports) {
        FailedBatchStaysFailed(w, shadow, report, row.average);
      } else {
        var now := SettleAll(w, shadow.reports).world;
        SnapshotIsFresh(w, now, shadow, report);
        if Settleable(w, row.orderNumber) {
          assert TracksOrder(w, now, shadow, row.orderNumber);
          RowAdvances(w, now, shadow, row, report);
          NextReportSettles(w, shadow, report, row.average);
        } else {
          NextReportIsRefused(w, shadow, report, row.average);
        }
      }
    }
  }

  lemma FailedBatchStaysFailed(w: World, shadow: Shadow, report: ExecutionReport, average: Option<real>)
    requires Sound(w) && BatchSettles(w, shadow) && !AllSettleable(w, shadow.reports)
    requires ShadowKeys(shadow) && report.brokerOrderId in shadow.contexts
    ensures BatchSettles(w, Advanced(shadow, report, average))
  {
    var reports := shadow.reports + [report];
    assert reports[..|shadow.reports|] == shadow.reports;
    FailureEndsTheBatch(w, reports, |shadow.reports|);
    var bad :| bad in shadow.reports && !Settleable(w, bad.brokerOrderId);
    assert bad in reports;
  }

  lemma NextReportSettles(w: World, shadow: Shadow, report: ExecutionReport, average: Option<real>)
    requires Sound(w) && BatchSettles(w, shadow) && AllSettleable(w, shadow.reports)
    requires ShadowKeys(shadow) && report.brokerOrderId in shadow.contexts && Settleable(w, report.brokerOrderId)
    requires report.clientOrderId == w.oms.brokerToClient[report.brokerOrderId]
    requires var now := SettleAll(w, shadow.reports).world;
             && Admitted(now, report) && Settle(now, report).result.Ok?
             && OrderAdvances(now.oms, Settle(now, report).world.oms, report, average)
    ensures BatchSettles(w, Advanced(shadow, report, average))
  {
    var now := SettleAll(w, shadow.reports).world;
    var next := Settle(now, report).world;
    AdmissionAdvances(now, report);
    AdvanceTracks(w, now, shadow, report, average, next);
    OneMore(w, shadow.reports, report);
    OneMoreSettleable(w, shadow.reports, report);
  }

  lemma OneMoreSettleable(w: World, reports: seq<ExecutionReport>, report: ExecutionReport)
    requires AllSettleable(w, reports) && Settleable(w, report.brokerOrderId)
    ensures AllSettleable(w, reports + [report])
  {
  }

  lemma NextReportIsRefused(w: World, shadow: Shadow, report: ExecutionReport, average: Option<real>)
    requires Sound(w) && BatchSettles(w, shadow) && AllSettleable(w, shadow.reports)
    requires ShadowKeys(shadow) && report.brokerOrderId in shadow.contexts && !Settleable(w, report.brokerOrderId)
    requires AdapterBuilt(w.oms, report)
    requires report.executionId !in SettleAll(w, shadow.reports).world.seen
    ensures BatchSettles(w, Advanced(shadow, report, average))
  {
    UnsettleableIsRefused(w, SettleAll(w, shadow.reports).world, report);
    OneMore(w, shadow.reports, report);
    assert report in shadow.reports + [report];
  }

  /** The next snapshot of an order is beyond every snapshot consumed so far. */
  lemma SnapshotIsFresh(w: World, now: World, shadow: Shadow, report: ExecutionReport)
    requires Sound(w) && SnapshotsBehind(w) && ShadowsOms(w.oms, shadow) && Tracks(w, now, shadow)
    requires report.executionId.RestSnapshot? && report.executionId.order in shadow.contexts
    requires report.executionId.cumulative > shadow.cumulative[report.executionId.order]
    ensures report.executionId !in now.seen
  {
    var order := report.executionId.order;
    assert ShadowsOrder(w.oms, shadow, order);
    ContextIsOwn(w.oms, order);
    forall earlier | earlier in shadow.reports
      ensures earlier.executionId != report.executionId
    {
      assert ReportOfBatch(w.oms, shadow, earlier);
    }
  }

  lemma UnsettleableIsRefused(w: World, now: World, report: ExecutionReport)
    requires Sound(w) && Sound(now) && SameOrders(w, now)
    requires report.executionId !in now.seen
    requires AdapterBuilt(w.oms, report) && !Settleable(w, report.brokerOrderId)
    ensures Settle(now, report).result.Err?
  {
    SettleAllOrNothing(now, report);
    if Admitted(now, report) {
      AdmittedCommandIsOwn(now, report);
      assert SameOrder(w.oms.states[report.clientOrderId], now.oms.states[report.clientOrderId]);
    } else {
      RefusedStaysUnconsumed(now, report);
    }
  }

  /** The delta that the adapter differentiated integrates to the row's own cumulative average. */
  lemma RowAdvances(w: World, now: World, shadow: Shadow, row: Row, report: ExecutionReport)
    requires Sound(w) && Sound(now) && SameOrders(w, now)
    requires ShadowKeys(shadow) && row.Row? && row.orderNumber in shadow.contexts
    requires ShadowsOrder(w.oms, shadow, row.orderNumber)
    requires Settleable(w, row.orderNumber) && TracksOrder(w, now, shadow, row.orderNumber)
    requires RowReport(row, CurrentContext(shadow, row.orderNumber)) == Ok(Some(report))
    requires report.executionId !in now.seen
    ensures Admitted(now, report) && Settle(now, report).result.Ok?
    ensures report.clientOrderId == w.oms.brokerToClient[row.orderNumber]
    ensures OrderAdvances(now.oms, Settle(now, report).world.oms, report, row.average)
  {
    RowReportFits(w, now, shadow, row, report);
    FittingReportSettles(now, report, row.cumulative.value, row.average.value);
  }

  /** The report takes an open order to `cumulative`, at the price that makes `average` its new average. */
  ghost predicate Fits(state: OrderState, report: ExecutionReport, cumulative: int, average: real) {
    && (state.status.ACKED? || state.status.PARTIALLY_FILLED?)
    && report.brokerOrderId == state.brokerOrderId
    && state.filledQuantity < cumulative <= state.orderQuantity
    && report.filledQuantity == cumulative - state.filledQuantity
    && report.remainingQuantity == state.orderQuantity - cumulative
    && report.status == FillStatus(cumulative, state.orderQuantity)
    && average > 0.0 && report.executionPrice.Some? && report.executionPrice.value > 0.0
    && DeltaExecutionPrice(cumulative, average, state.filledQuantity, state.averagePrice)
       == Ok(report.executionPrice.value)
  }

  lemma RowReportFits(w: World, now: World, shadow: Shadow, row: Row, report: ExecutionReport)
    requires Sound(w) && Sound(now) && SameOrders(w, now)
    requires ShadowKeys(shadow) && row.Row? && row.orderNumber in shadow.contexts
    requires ShadowsOrder(w.oms, shadow, row.orderNumber)
    requires Settleable(w, row.orderNumber) && TracksOrder(w, now, shadow, row.orderNumber)
    requires RowReport(row, CurrentContext(shadow, row.orderNumber)) == Ok(Some(report))
    ensures report.clientOrderId == w.oms.brokerToClient[row.orderNumber]
    ensures report.executionId.RestSnapshot? && Settleable(now, report.brokerOrderId)
    ensures row.cumulative.Some? && row.average.Some?
    ensures report.brokerOrderId in now.oms.brokerToClient
            && now.oms.brokerToClient[report.brokerOrderId] == report.clientOrderId
            && report.clientOrderId in now.oms.states
            && Fits(now.oms.states[report.clientOrderId], report, row.cumulative.value, row.average.value)
  {
    var client := w.oms.brokerToClient[row.orderNumber];
    ContextIsOwn(w.oms, row.orderNumber);
    assert SameOrder(w.oms.states[client], now.oms.states[client]);
  }

  lemma FittingReportSettles(now: World, report: ExecutionReport, cumulative: int, average: real)
    requires Sound(now) && Settleable(now, report.brokerOrderId)
    requires now.oms.brokerToClient[report.brokerOrderId] == report.clientOrderId
    requires Fits(now.oms.states[report.clientOrderId], report, cumulative, average)
    requires report.executionId.RestSnapshot? && report.executionId !in now.seen
    ensures Admitted(now, report) && Settle(now, report).result.Ok?
    ensures OrderAdvances(now.oms, Settle(now, report).world.oms, report, Some(average))
  {
    ReportAdvances(now.oms, report, cumulative, average);
    assert ConsistentOrder(now.oms, report.clientOrderId, now.oms.states[report.clientOrderId]);
    SettleAllOrNothing(now, report);
  }

  lemma ReportAdvances(oms: Oms, report: ExecutionReport, cumulative: int, average: real)
    requires Consistent(oms) && report.clientOrderId in oms.states
    requires Fits(oms.states[report.clientOrderId], report, cumulative, average)
    ensures AfterExecution(oms, report).Ok?
    ensures OrderAdvances(oms, AfterExecution(oms, report).value, report, Some(average))
  {
    var state := oms.states[report.clientOrderId];
    assert ConsistentOrder(oms, report.clientOrderId, state);
    if state.filledQuantity > 0 {
      DeltaPriceInverts(cumulative, average, state.filledQuantity, state.averagePrice.value);
    }
  }

  lemma AdvanceTracks(w: World, now: World, shadow: Shadow, report: ExecutionReport, average: Option<real>, next: World)
    requires Tracks(w, now, shadow)
    requires report.brokerOrderId in shadow.contexts && Settleable(w, report.brokerOrderId)
    requires report.clientOrderId == w.oms.brokerToClient[report.brokerOrderId]
    requires Sound(next) && next.position.instrumentId == now.position.instrumentId
    requires next.seen == now.seen + {report.executionId}
    requires OrderAdvances(now.oms, next.oms, report, average)
    ensures Tracks(w, next, Advanced(shadow, report, average))
  {
    AdvanceKeepsOrders(w, now, report, average, next);
    AdvanceKeepsTracking(w, now, shadow, report, average, next);
    AdvanceKeepsOthers(w, now, shadow, report, average, next);
    AdvanceKeepsSeen(w, now, shadow, report, average, next);
  }

  /** Two settleable broker ids of one order are the same id, so an advance disturbs no other shadow. */
  lemma AdvanceKeepsTracking(
    w: World, now: World, shadow: Shadow, report: ExecutionReport, average: Option<real>, next: World)
    requires ShadowKeys(shadow) && SameOrders(w, now) && SameOrders(w, next)
    requires OrdersTracked(w, now, shadow)
    requires report.brokerOrderId in shadow.contexts && Settleable(w, report.brokerOrderId)
    requires report.clientOrderId == w.oms.brokerToClient[report.brokerOrderId]
    requires OrderAdvances(now.oms, next.oms, report, average)
    ensures OrdersTracked(w, next, Advanced(shadow, report, average))
  {
    var after := Advanced(shadow, report, average);
    forall order | order in after.contexts && Settleable(w, order)
      ensures TracksOrder(w, next, after, order)
    {
      assert TracksOrder(w, now, shadow, order);
      if w.oms.brokerToClient[order] == report.clientOrderId {
        assert order == report.brokerOrderId;
      }
    }
  }

  lemma AdvanceKeepsOthers(
    w: World, now: World, shadow: Shadow, report: ExecutionReport, average: Option<real>, next: World)
    requires ShadowKeys(shadow) && SameOrders(w, now) && SameOrders(w, next)
    requires OthersUntouched(w, now, shadow)
    requires report.brokerOrderId in shadow.contexts && Settleable(w, report.brokerOrderId)
    requires report.clientOrderId == w.oms.brokerToClient[report.brokerOrderId]
    requires OrderAdvances(now.oms, next.oms, report, average)
    ensures OthersUntouched(w, next, Advanced(shadow, report, average))
  {
    var after := Advanced(shadow, report, average);
    forall other | other in w.oms.states && !Touched(w, after, other)
      ensures next.oms.states[other] == w.oms.states[other]
    {
      assert !Touched(w, shadow, other);
      assert other != report.clientOrderId;
    }
  }

  lemma AdvanceKeepsOrders(w: World, now: World, report: ExecutionReport, average: Option<real>, next: World)
    requires SameOrders(w, now)
    requires next.position.instrumentId == now.position.instrumentId
    requires OrderAdvances(now.oms, next.oms, report, average)
    ensures SameOrders(w, next)
  {
    forall client | client in w.oms.states
      ensures SameOrder(w.oms.states[client], next.oms.states[client])
    {
      assert SameOrder(w.oms.states[client], now.oms.states[client]);
    }
  }

  lemma AdvanceKeepsSeen(
    w: World, now: World, shadow: Shadow, report: ExecutionReport, average: Option<real>, next: World)
    requires ShadowKeys(shadow) && report.brokerOrderId in shadow.contexts
    requires OnlyBatchSeen(w, now, shadow) && next.seen == now.seen + {report.executionId}
    ensures OnlyBatchSeen(w, next, Advanced(shadow, report, average))
  {
    var after := Advanced(shadow, report, average);
    assert after.reports[|shadow.reports|] == report;
    forall id | id in next.seen && id !in w.seen
      ensures exists r :: r in after.reports && r.executionId == id
    {
      if id != report.executionId {
        var r :| r in shadow.reports && r.executionId == id;
        assert r in after.reports;
      }
    }
  }
}
