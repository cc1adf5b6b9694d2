/** Settling one execution report into the dedup gate, the OMS and the live position. */
module Settlement {
  import opened Contracts
  import opened OrderStates
  import opened LivePosition

  /** The three stores that settlement keeps in agreement. */
  datatype World = World(oms: Oms, seen: set<ExecutionId>, position: Position)

  datatype Outcome = Outcome(world: World, result: Result<OrderState, Error>)

  ghost predicate Sound(w: World) {
    Consistent(w.oms) && Valid(w.position)
  }

  /** What the fill adapter does with a command and a report. */
  function AfterReport(position: Position, command: BrokerOrderCommand, report: ExecutionReport)
    : Result<Position, Error>
    requires Valid(position)
  {
    if command.clientOrderId != report.clientOrderId then Err(CLIENT_ORDER_ID_MISMATCH)
    else if command.instrumentId != position.instrumentId then Err(INSTRUMENT_ID_MISMATCH)
    else if !Tradable(command.side) then Err(SIDE_INVALID)
    else if report.filledQuantity <= 0 || report.filledQuantity > command.quantity then Err(FILLED_QUANTITY_INVALID)
    else if report.executionPrice.None? then Err(EXECUTION_PRICE_REQUIRED)
    else AfterFill(position, command.side, report.filledQuantity, report.executionPrice.value)
  }

  /** The fill adapter's own conditions, as a caller can check them. */
  predicate Fillable(position: Position, command: BrokerOrderCommand, report: ExecutionReport) {
    && command.instrumentId == position.instrumentId
    && Tradable(command.side)
    && report.executionPrice.Some? && report.executionPrice.value > 0.0
  }

  /** Consumes a validated report's identity, then applies it to the OMS, then to the position. */
  function AfterAcceptance(w: World, command: BrokerOrderCommand, report: ExecutionReport): Outcome
    requires Valid(w.position)
  {
    var accepted := w.(seen := w.seen + {report.executionId});
    match AfterExecution(w.oms, report)
    case Err(error) => Outcome(accepted, Err(error))
    case Ok(oms) =>
      var executed := accepted.(oms := oms);
      match AfterReport(w.position, command, report)
      case Err(error) => Outcome(executed, Err(error))
      case Ok(position) => Outcome(executed.(position := position), Ok(oms.states[report.clientOrderId]))
  }

  function Settle(w: World, report: ExecutionReport): Outcome
    requires Valid(w.position)
  {
    if report.clientOrderId !in w.oms.states then Outcome(w, Err(EXECUTION_BEFORE_ACK))
    else
      var state := w.oms.states[report.clientOrderId];
      var cumulative := state.filledQuantity + report.filledQuantity;
      if report.executionId.NoId? then Outcome(w, Err(EXECUTION_EVENT_ID_REQUIRED))
      else if report.executionId in w.seen then Outcome(w, Ok(state))
      else if !state.status.ACKED? && !state.status.PARTIALLY_FILLED? then Outcome(w, Err(EXECUTION_BEFORE_ACK))
      else if CommandFor(w.oms, report.brokerOrderId).Err? then
        Outcome(w, Err(CommandFor(w.oms, report.brokerOrderId).error))
      else if !report.status.PARTIALLY_FILLED? && !report.status.FILLED? then
        Outcome(w, Err(UNSUPPORTED_EXECUTION_STATUS))
      else if report.filledQuantity <= 0 then Outcome(w, Err(FILLED_QUANTITY_INVALID))
      else if cumulative > state.orderQuantity then Outcome(w, Err(FILLED_QUANTITY_EXCEEDS_ORDER))
      else if report.remainingQuantity != state.orderQuantity - cumulative then
        Outcome(w, Err(REMAINING_QUANTITY_MISMATCH))
      else if report.brokerOrderId != "" && state.brokerOrderId != report.brokerOrderId then
        Outcome(w, Err(BROKER_ORDER_ID_MISMATCH))
      else AfterAcceptance(w, CommandFor(w.oms, report.brokerOrderId).value, report)
  }

  /**
    The gate is passed: the report is new and the OMS validates it completely, so that its
    identity is consumed.
   */
  ghost predicate Admitted(w: World, report: ExecutionReport) {
    && !report.executionId.NoId?
    && report.executionId !in w.seen
    && CommandFor(w.oms, report.brokerOrderId).Ok?
    && AfterExecution(w.oms, report).Ok?
  }

  /** The three stores after all of them advanced by `report`. */
  ghost predicate AllAdvanced(w: World, report: ExecutionReport, after: World) {
    && CommandFor(w.oms, report.brokerOrderId).Ok?
    && after.seen == w.seen + {report.executionId}
    && AfterExecution(w.oms, report) == Ok(after.oms)
    && after.oms.states[report.clientOrderId].filledQuantity
       == w.oms.states[report.clientOrderId].filledQuantity + report.filledQuantity
    && after.position.instrumentId == w.position.instrumentId
    && Signed(after.position) == Signed(w.position)
       + Sign(CommandFor(w.oms, report.brokerOrderId).value.side) * report.filledQuantity
  }

  /** The command fetched by the report's broker id is the one of the report's own order. */
  lemma AdmittedCommandIsOwn(w: World, report: ExecutionReport)
    requires Sound(w) && Admitted(w, report)
    ensures var state := w.oms.states[report.clientOrderId];
            && CommandFor(w.oms, report.brokerOrderId) == Ok(state.command.value)
            && state.brokerOrderId == report.brokerOrderId
            && state.command.value.clientOrderId == report.clientOrderId
            && report.filledQuantity <= state.command.value.quantity
  {
    assert ConsistentOrder(w.oms, report.clientOrderId, w.oms.states[report.clientOrderId]);
  }

  /**
    Settlement is all or nothing exactly when the fill adapter has nothing to refuse. A report that
    is not admitted changes nothing. An admitted one advances all three stores by the same fill if
    its command names this instrument with a tradable side and its price is positive; otherwise,
    and only then, its identity and the OMS advance while the position stays behind.
   */
  lemma SettleAllOrNothing(w: World, report: ExecutionReport)
    requires Sound(w)
    ensures var after := Settle(w, report).world;
            && Sound(after)
            && (!Admitted(w, report) ==> after == w)
            && (Admitted(w, report) ==>
                  var command := CommandFor(w.oms, report.brokerOrderId).value;
                  if Fillable(w.position, command, report)
                  then AllAdvanced(w, report, after) && Settle(w, report).result.Ok?
                  else && after.seen == w.seen + {report.executionId}
                       && AfterExecution(w.oms, report) == Ok(after.oms)
                       && after.position == w.position
                       && Settle(w, report).result.Err?)
  {
    if Admitted(w, report) {
      AdmissionAdvances(w, report);
    } else {
      RefusalChangesNothing(w, report);
    }
  }

  lemma RefusalChangesNothing(w: World, report: ExecutionReport)
    requires Sound(w) && !Admitted(w, report)
    ensures Settle(w, report).world == w
  {
  }

  lemma AdmissionAdvances(w: World, report: ExecutionReport)
    requires Sound(w) && Admitted(w, report)
    ensures var after := Settle(w, report).world;
            var command := CommandFor(w.oms, report.brokerOrderId).value;
            && Sound(after)
            && after.seen == w.seen + {report.executionId}
            && AfterExecution(w.oms, report) == Ok(after.oms)
            && (Settle(w, report).result.Ok? <==> Fillable(w.position, command, report))
            && (if Fillable(w.position, command, report)
                then AllAdvanced(w, report, after)
                else after.position == w.position)
  {
    AdmittedCommandIsOwn(w, report);
    var command := CommandFor(w.oms, report.brokerOrderId).value;
    assert Settle(w, report) == AfterAcceptance(w, command, report);
    AcceptanceAdvances(w, command, report);
  }

  lemma AcceptanceAdvances(w: World, command: BrokerOrderCommand, report: ExecutionReport)
    requires Sound(w)
    requires AfterExecution(w.oms, report).Ok?
    requires command.clientOrderId == report.clientOrderId && report.filledQuantity <= command.quantity
    ensures var r := AfterAcceptance(w, command, report);
            && Sound(r.world)
            && r.world.seen == w.seen + {report.executionId}
            && AfterExecution(w.oms, report) == Ok(r.world.oms)
            && (r.result.Ok? <==> Fillable(w.position, command, report))
            && (if Fillable(w.position, command, report)
                then && r.world.position.instrumentId == w.position.instrumentId
                     && Signed(r.world.position) == Signed(w.position) + Sign(command.side) * report.filledQuantity
                else r.world.position == w.position)
  {
    ExecutionKeeps(w.oms, report);
    if report.executionPrice.Some? {
      FillMovesPosition(w.position, command.side, report.filledQuantity, report.executionPrice.value);
    }
  }

  /** What the fill adapter applies by itself, exactly, and how far that moves the position. */
  lemma FillIsAppliedExactly(position: Position, command: BrokerOrderCommand, report: ExecutionReport)
    requires Valid(position)
    ensures var r := AfterReport(position, command, report);
            && (r.Ok? <==>
                  && command.clientOrderId == report.clientOrderId && command.instrumentId == position.instrumentId
                  && (command.side == BUY || command.side == SELL)
                  && 0 < report.filledQuantity <= command.quantity
                  && report.executionPrice.Some? && report.executionPrice.value > 0.0)
            && (r.Ok? ==> Signed(r.value) == Signed(position) + Sign(command.side) * report.filledQuantity)
  {
    if report.executionPrice.Some? {
      FillMovesPosition(position, command.side, report.filledQuantity, report.executionPrice.value);
    }
  }

  /** A refused report that was new is still new: nothing is consumed before everything is validated. */
  lemma RefusedStaysUnconsumed(w: World, report: ExecutionReport)
    requires Sound(w)
    requires report.executionId !in w.seen
    requires !Admitted(w, report)
    ensures Settle(w, report).world == w && Settle(w, report).result.Err?
  {
    SettleAllOrNothing(w, report);
  }

  /** Delivering a settled report again, at any later time, changes nothing. */
  lemma ReplayIsIdempotent(w: World, later: World, report: ExecutionReport)
    requires Sound(w) && Sound(later)
    requires Admitted(w, report)
    requires Settle(w, report).world.seen <= later.seen && Extends(w.oms, later.oms)
    ensures Settle(later, report) == Outcome(later, Ok(later.oms.states[report.clientOrderId]))
  {
    SettleAllOrNothing(w, report);
  }

  /** The quantity an order of `orderQuantity` had filled when a report was built against it. */
  function BuiltAgainst(orderQuantity: int, report: ExecutionReport): int {
    orderQuantity - report.remainingQuantity - report.filledQuantity
  }

  /**
    Remaining quantity works as a version check: a new report settles only into the very fill
    count it was built against. At any other count it is refused and leaves all three stores,
    the dedup gate included, as they were.
   */
  lemma RemainingQuantityIsAVersion(w: World, report: ExecutionReport)
    requires Sound(w)
    requires report.clientOrderId in w.oms.states
    requires report.executionId !in w.seen
    ensures var state := w.oms.states[report.clientOrderId];
            var prior := BuiltAgainst(state.orderQuantity, report);
            && (state.filledQuantity != prior ==>
                  Settle(w, report).world == w && Settle(w, report).result.Err?)
            && (state.filledQuantity == prior ==>
                  (Admitted(w, report) <==>
                     && !report.executionId.NoId?
                     && (state.status.ACKED? || state.status.PARTIALLY_FILLED?)
                     && (report.status.PARTIALLY_FILLED? || report.status.FILLED?)
                     && report.filledQuantity > 0 && report.remainingQuantity >= 0
                     && state.command.Some? && state.brokerOrderId == report.brokerOrderId))
  {
    var state := w.oms.states[report.clientOrderId];
    assert ConsistentOrder(w.oms, report.clientOrderId, state);
    SettleAllOrNothing(w, report);
  }

  // ----- the objects -----

  class ExecutionEventDeduplicator {
    var seenExecutionIds: set<ExecutionId>

    constructor ()
      ensures seenExecutionIds == {}
    {
      seenExecutionIds := {};
    }

    method Accept(report: ExecutionReport) returns (r: Result<bool, Error>)
      modifies this
      ensures r == if report.executionId.NoId? then Err(EXECUTION_EVENT_ID_REQUIRED)
                   else Ok(report.executionId !in old(seenExecutionIds))
      ensures seenExecutionIds == if r == Ok(true) then old(seenExecutionIds) + {report.executionId}
                                  else old(seenExecutionIds)
    {
      if report.executionId == NoId { return Err(EXECUTION_EVENT_ID_REQUIRED); }
      if report.executionId in seenExecutionIds { return Ok(false); }
      seenExecutionIds := seenExecutionIds + {report.executionId};
      return Ok(true);
    }

    predicate Contains(executionId: ExecutionId)
      reads this
    {
      executionId in seenExecutionIds
    }
  }

  class LivePositionFillAdapter {
    const aggregate: LivePositionAggregate

    constructor (aggregate: LivePositionAggregate)
      ensures this.aggregate == aggregate
    {
      this.aggregate := aggregate;
    }

    method Apply(command: BrokerOrderCommand, report: ExecutionReport) returns (r: Result<(), Error>)
      requires Valid(aggregate.Value())
      modifies aggregate
      ensures Valid(aggregate.Value())
      ensures match AfterReport(old(aggregate.Value()), command, report)
              case Ok(position) => aggregate.Value() == position && r == Ok(())
              case Err(error) => aggregate.Value() == old(aggregate.Value()) && r == Err(error)
    {
      if command.clientOrderId != report.clientOrderId { return Err(CLIENT_ORDER_ID_MISMATCH); }
      if command.instrumentId != aggregate.instrumentId { return Err(INSTRUMENT_ID_MISMATCH); }
      if command.side != BUY && command.side != SELL { return Err(SIDE_INVALID); }
      if report.filledQuantity <= 0 || report.filledQuantity > command.quantity { return Err(FILLED_QUANTITY_INVALID); }
      if report.executionPrice.None? { return Err(EXECUTION_PRICE_REQUIRED); }
      r := aggregate.ApplyFill(command.side, report.filledQuantity, report.executionPrice.value);
    }
  }

  class LiveExecutionPositionBridge {
    const oms: OrderStateMachine
    const fillAdapter: LivePositionFillAdapter
    const dedup: ExecutionEventDeduplicator
    const position: LivePositionAggregate

    ghost function Value(): World
      reads oms, dedup, position
    {
      World(oms.Value(), dedup.seenExecutionIds, position.Value())
    }

    /** The assembly hands the bridge the aggregate that its fill adapter writes to. */
    ghost predicate Assembled()
      reads oms, dedup, position
    {
      fillAdapter.aggregate == position && Sound(Value())
    }

    constructor (oms: OrderStateMachine, fillAdapter: LivePositionFillAdapter,
                 dedup: ExecutionEventDeduplicator, position: LivePositionAggregate)
      ensures this.oms == oms && this.fillAdapter == fillAdapter && this.dedup == dedup && this.position == position
    {
      this.oms, this.fillAdapter, this.dedup, this.position := oms, fillAdapter, dedup, position;
    }

    method SettleReport(report: ExecutionReport) returns (r: Result<OrderState, Error>)
      requires Assembled()
      modifies oms, dedup, position
      ensures Assembled()
      ensures Outcome(Value(), r) == Settle(old(Value()), report)
    {
      SettleAllOrNothing(Value(), report);
      if report.clientOrderId !in oms.states { return Err(EXECUTION_BEFORE_ACK); }
      var state := oms.states[report.clientOrderId];
      if report.executionId == NoId { return Err(EXECUTION_EVENT_ID_REQUIRED); }
      if dedup.Contains(report.executionId) { return Ok(state); }
      if state.status != ACKED && state.status != PARTIALLY_FILLED { return Err(EXECUTION_BEFORE_ACK); }
      var found := oms.GetBrokerOrderCommand(report.brokerOrderId);
      if found.Err? { return Err(found.error); }
      var command := found.value;
      if report.status != PARTIALLY_FILLED && report.status != FILLED { return Err(UNSUPPORTED_EXECUTION_STATUS); }
      if report.filledQuantity <= 0 { return Err(FILLED_QUANTITY_INVALID); }
      var cumulative := state.filledQuantity + report.filledQuantity;
      if cumulative > state.orderQuantity { return Err(FILLED_QUANTITY_EXCEEDS_ORDER); }
      if report.remainingQuantity != state.orderQuantity - cumulative { return Err(REMAINING_QUANTITY_MISMATCH); }
      if report.brokerOrderId != "" && state.brokerOrderId != report.brokerOrderId {
        return Err(BROKER_ORDER_ID_MISMATCH);
      }
      var accepted := dedup.Accept(report);
      if accepted != Ok(true) { return Ok(state); }
      r := oms.ApplyExecution(report);
      if r.Err? { return r; }
      var filled := fillAdapter.Apply(command, report);
      if filled.Err? { return Err(filled.error); }
    }
  }
}
