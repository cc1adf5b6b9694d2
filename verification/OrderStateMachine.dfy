/** Order state and broker/client correlation, owned by the OMS. */
module OrderStates {
  import opened Contracts

  datatype OrderState = OrderState(
    clientOrderId: string,
    status: Status,
    brokerOrderId: string,
    orderQuantity: int,
    filledQuantity: nat,
    command: Option<BrokerOrderCommand>,
    averagePrice: Option<real>)

  datatype ExecutionCorrelation = ExecutionCorrelation(
    clientOrderId: string,
    brokerOrderId: string,
    orderQuantity: int,
    priorFilledQuantity: nat,
    priorAveragePrice: Option<real>)

  /** The two dictionaries of the state machine, as a value. */
  datatype Oms = Oms(states: map<string, OrderState>, brokerToClient: map<string, string>)

  const EMPTY := Oms(map[], map[])

  // ----- what each transition does -----

  function AfterIntent(oms: Oms, clientOrderId: string, quantity: int): Result<Oms, Error> {
    if clientOrderId == "" then Err(CLIENT_ORDER_ID_REQUIRED)
    else if quantity <= 0 then Err(ORDER_QUANTITY_INVALID)
    else if clientOrderId in oms.states then Err(ORDER_INTENT_ALREADY_REGISTERED)
    else Ok(oms.(states := oms.states[
      clientOrderId := OrderState(clientOrderId, SUBMITTED, "", quantity, 0, None, None)]))
  }

  function AfterRegister(oms: Oms, command: BrokerOrderCommand): Result<Oms, Error> {
    if command.clientOrderId == "" then Err(CLIENT_ORDER_ID_REQUIRED)
    else if command.clientOrderId !in oms.states then Err(ORDER_NOT_REGISTERED)
    else
      var current := oms.states[command.clientOrderId];
      if !current.status.SUBMITTED? && !current.status.ACKED? then Err(BROKER_COMMAND_AFTER_INVALID_STATE)
      else if command.quantity != current.orderQuantity then Err(BROKER_COMMAND_QUANTITY_MISMATCH)
      else if command.instrumentIdentity.Some? &&
              command.instrumentId != command.instrumentIdentity.value.instrumentId
      then Err(BROKER_COMMAND_INSTRUMENT_ID_MISMATCH)
      else Ok(oms.(states := oms.states[command.clientOrderId := current.(command := Some(command))]))
  }

  function AfterAck(oms: Oms, event: OrderAckEvent): Result<Oms, Error> {
    if event.clientOrderId == "" then Err(CLIENT_ORDER_ID_REQUIRED)
    else if event.clientOrderId !in oms.states then Err(ORDER_NOT_REGISTERED)
    else
      var current := oms.states[event.clientOrderId];
      if !current.status.SUBMITTED? && !current.status.ACKED? then Err(ACK_AFTER_TERMINAL_STATE)
      else if event.accepted && event.brokerOrderId == "" then Err(BROKER_ORDER_ID_REQUIRED_FOR_ACCEPTED_ACK)
      else if event.accepted && event.brokerOrderId in oms.brokerToClient &&
              oms.brokerToClient[event.brokerOrderId] != event.clientOrderId
      then Err(BROKER_ORDER_ID_ALREADY_CORRELATED)
      else
        var state := current.(status := if event.accepted then ACKED else REJECTED,
                              brokerOrderId := event.brokerOrderId);
        Ok(Oms(oms.states[event.clientOrderId := state],
               if event.accepted
               then oms.brokerToClient[event.brokerOrderId := event.clientOrderId]
               else oms.brokerToClient))
  }

  function AveragePriceAfter(current: OrderState, report: ExecutionReport): Option<real>
    requires current.filledQuantity + report.filledQuantity > 0
  {
    if report.executionPrice.None? || report.executionPrice.value <= 0.0 then current.averagePrice
    else if current.filledQuantity == 0 || current.averagePrice.None? then report.executionPrice
    else Some(WeightedAverage(current.averagePrice.value, current.filledQuantity,
                              report.executionPrice.value, report.filledQuantity))
  }

  function AfterExecution(oms: Oms, report: ExecutionReport): Result<Oms, Error> {
    if report.clientOrderId !in oms.states then Err(ORDER_NOT_REGISTERED)
    else
      var current := oms.states[report.clientOrderId];
      var cumulative := current.filledQuantity + report.filledQuantity;
      if !current.status.ACKED? && !current.status.PARTIALLY_FILLED? then Err(EXECUTION_BEFORE_ACK)
      else if !report.status.PARTIALLY_FILLED? && !report.status.FILLED? then Err(UNSUPPORTED_EXECUTION_STATUS)
      else if report.filledQuantity <= 0 then Err(FILLED_QUANTITY_INVALID)
      else if cumulative > current.orderQuantity then Err(FILLED_QUANTITY_EXCEEDS_ORDER)
      else if report.remainingQuantity != current.orderQuantity - cumulative then Err(REMAINING_QUANTITY_MISMATCH)
      else if report.brokerOrderId != "" && current.brokerOrderId != report.brokerOrderId
      then Err(BROKER_ORDER_ID_MISMATCH)
      else
        var state := OrderState(
          report.clientOrderId,
          report.status,
          if report.brokerOrderId != "" then report.brokerOrderId else current.brokerOrderId,
          current.orderQuantity,
          cumulative,
          current.command,
          AveragePriceAfter(current, report));
        Ok(oms.(states := oms.states[report.clientOrderId := state]))
  }

  function ResolveCorrelation(oms: Oms, brokerOrderId: string): Result<ExecutionCorrelation, Error> {
    if brokerOrderId == "" then Err(BROKER_ORDER_ID_REQUIRED)
    else if brokerOrderId !in oms.brokerToClient then Err(BROKER_ORDER_ID_NOT_CORRELATED)
    else if oms.brokerToClient[brokerOrderId] !in oms.states then Err(CORRELATED_ORDER_STATE_MISSING)
    else
      var state := oms.states[oms.brokerToClient[brokerOrderId]];
      if !state.status.ACKED? && !state.status.PARTIALLY_FILLED? then Err(EXECUTION_CORRELATION_STATE_INVALID)
      else Ok(ExecutionCorrelation(
        state.clientOrderId, brokerOrderId, state.orderQuantity, state.filledQuantity, state.averagePrice))
  }

  function CommandFor(oms: Oms, brokerOrderId: string): Result<BrokerOrderCommand, Error> {
    if brokerOrderId == "" then Err(BROKER_ORDER_ID_REQUIRED)
    else if brokerOrderId !in oms.brokerToClient then Err(BROKER_ORDER_ID_NOT_CORRELATED)
    else
      var client := oms.brokerToClient[brokerOrderId];
      if client !in oms.states || oms.states[client].command.None? then Err(BROKER_ORDER_COMMAND_NOT_REGISTERED)
      else if oms.states[client].brokerOrderId != brokerOrderId then Err(BROKER_ORDER_ID_MISMATCH)
      else Ok(oms.states[client].command.value)
  }

  // ----- what every transition keeps -----

  predicate Bound(state: OrderState) {
    state.status.ACKED? || state.status.PARTIALLY_FILLED? || state.status.FILLED?
  }

  ghost predicate ConsistentOrder(oms: Oms, client: string, state: OrderState) {
    && state.clientOrderId == client != ""
    && state.orderQuantity > 0
    && !state.status.OtherStatus?
    // Fills: none before the first execution, never more than ordered.
    && state.filledQuantity <= state.orderQuantity
    && (state.filledQuantity > 0 <==> state.status.PARTIALLY_FILLED? || state.status.FILLED?)
    && (state.filledQuantity == 0 ==> state.averagePrice.None?)
    && (state.averagePrice.Some? ==> state.averagePrice.value > 0.0)
    // Correlation: the broker id of a bound order leads back to it.
    && (Bound(state) ==>
          && state.brokerOrderId != ""
          && state.brokerOrderId in oms.brokerToClient
          && oms.brokerToClient[state.brokerOrderId] == client)
    // The registered command is this order's own, at the ordered quantity.
    && (state.command.Some? ==>
          && state.command.value.clientOrderId == client
          && state.command.value.quantity == state.orderQuantity)
  }

  ghost predicate Consistent(oms: Oms) {
    && (forall client :: client in oms.states ==> ConsistentOrder(oms, client, oms.states[client]))
    && (forall broker :: broker in oms.brokerToClient ==>
          broker != "" && oms.brokerToClient[broker] in oms.states)
  }

  /** FILLED means filled: what `apply_execution` itself does not check. */
  ghost predicate StatusMatchesFills(oms: Oms) {
    forall client :: client in oms.states ==>
      (oms.states[client].status.FILLED? <==> oms.states[client].filledQuantity == oms.states[client].orderQuantity)
  }

  /** `later` can follow `earlier`: nothing an order has settled is ever taken back. */
  ghost predicate Extends(earlier: Oms, later: Oms) {
    && (forall broker :: broker in earlier.brokerToClient ==>
          broker in later.brokerToClient && later.brokerToClient[broker] == earlier.brokerToClient[broker])
    && (forall client :: client in earlier.states ==>
          client in later.states && OrderExtends(earlier.states[client], later.states[client]))
  }

  ghost predicate OrderExtends(earlier: OrderState, later: OrderState) {
    && later.orderQuantity == earlier.orderQuantity
    && later.filledQuantity >= earlier.filledQuantity
    && (earlier.filledQuantity > 0 ==> later.command == earlier.command && later.brokerOrderId == earlier.brokerOrderId)
    && (earlier.status.FILLED? || earlier.status.REJECTED? ==> later == earlier)
  }

  /** Routing and acknowledging leave fills, averages and the commands of filled orders as they are. */
  ghost predicate FillsUnchanged(before: Oms, after: Oms) {
    && before.states.Keys <= after.states.Keys
    && (forall client :: client in after.states ==>
          if client in before.states
          then SameFills(before.states[client], after.states[client])
          else after.states[client].filledQuantity == 0)
  }

  ghost predicate SameFills(before: OrderState, after: OrderState) {
    && after.filledQuantity == before.filledQuantity
    && after.averagePrice == before.averagePrice
    && (before.filledQuantity > 0 ==> after.command == before.command)
  }

  /** What a transition that fills nothing keeps. */
  ghost predicate Keeps(before: Oms, after: Oms) {
    && Consistent(after)
    && Extends(before, after)
    && FillsUnchanged(before, after)
    && (StatusMatchesFills(before) ==> StatusMatchesFills(after))
  }

  lemma KeepsTransitive(a: Oms, b: Oms, c: Oms)
    requires Keeps(a, b) && Keeps(b, c)
    ensures Keeps(a, c)
  {
    ExtendsTransitive(a, b, c);
    forall client | client in c.states
      ensures if client in a.states then SameFills(a.states[client], c.states[client])
              else c.states[client].filledQuantity == 0
    {
      if client in a.states {
        assert SameFills(a.states[client], b.states[client]);
      }
      if client in b.states {
        assert SameFills(b.states[client], c.states[client]);
      }
    }
  }

  lemma ExtendsTransitive(a: Oms, b: Oms, c: Oms)
    requires Extends(a, b) && Extends(b, c)
    ensures Extends(a, c)
  {
    forall broker | broker in a.brokerToClient
      ensures broker in c.brokerToClient && c.brokerToClient[broker] == a.brokerToClient[broker]
    {
      assert broker in b.brokerToClient;
    }
    forall client | client in a.states
      ensures client in c.states && OrderExtends(a.states[client], c.states[client])
    {
      assert client in b.states && OrderExtends(a.states[client], b.states[client]);
      assert OrderExtends(b.states[client], c.states[client]);
    }
  }

  lemma ConsistentStart()
    ensures Consistent(EMPTY) && StatusMatchesFills(EMPTY)
  {
  }

  lemma IntentKeeps(oms: Oms, clientOrderId: string, quantity: int)
    requires Consistent(oms)
    requires AfterIntent(oms, clientOrderId, quantity).Ok?
    ensures Keeps(oms, AfterIntent(oms, clientOrderId, quantity).value)
  {
    var oms' := AfterIntent(oms, clientOrderId, quantity).value;
    forall client | client in oms'.states
      ensures ConsistentOrder(oms', client, oms'.states[client])
    {
      if client != clientOrderId {
        assert ConsistentOrder(oms, client, oms.states[client]);
      }
    }
  }

  lemma RegisterKeeps(oms: Oms, command: BrokerOrderCommand)
    requires Consistent(oms)
    requires AfterRegister(oms, command).Ok?
    ensures Keeps(oms, AfterRegister(oms, command).value)
  {
    var oms' := AfterRegister(oms, command).value;
    forall client | client in oms'.states
      ensures ConsistentOrder(oms', client, oms'.states[client])
      ensures client in oms.states && OrderExtends(oms.states[client], oms'.states[client])
      ensures SameFills(oms.states[client], oms'.states[client])
    {
      assert ConsistentOrder(oms, client, oms.states[client]);
    }
  }

  lemma AckKeeps(oms: Oms, event: OrderAckEvent)
    requires Consistent(oms)
    requires AfterAck(oms, event).Ok?
    ensures Keeps(oms, AfterAck(oms, event).value)
  {
    var oms' := AfterAck(oms, event).value;
    assert oms.brokerToClient.Keys <= oms'.brokerToClient.Keys;
    forall client | client in oms'.states
      ensures ConsistentOrder(oms', client, oms'.states[client])
    {
      assert ConsistentOrder(oms, client, oms.states[client]);
    }
    AckChangesNoFill(oms, event);
  }

  lemma AckChangesNoFill(oms: Oms, event: OrderAckEvent)
    requires Consistent(oms)
    requires AfterAck(oms, event).Ok?
    ensures var oms' := AfterAck(oms, event).value;
            && Extends(oms, oms') && FillsUnchanged(oms, oms')
            && (StatusMatchesFills(oms) ==> StatusMatchesFills(oms'))
  {
    var oms' := AfterAck(oms, event).value;
    forall client | client in oms'.states
      ensures client in oms.states && OrderExtends(oms.states[client], oms'.states[client])
      ensures SameFills(oms.states[client], oms'.states[client])
    {
      assert ConsistentOrder(oms, client, oms.states[client]);
    }
  }

  lemma ExecutionKeeps(oms: Oms, report: ExecutionReport)
    requires Consistent(oms)
    requires AfterExecution(oms, report).Ok?
    ensures var oms' := AfterExecution(oms, report).value;
            Consistent(oms') && Extends(oms, oms') && oms'.brokerToClient == oms.brokerToClient
  {
    var oms' := AfterExecution(oms, report).value;
    var current := oms.states[report.clientOrderId];
    assert ConsistentOrder(oms, report.clientOrderId, current);
    if report.executionPrice.Some? && report.executionPrice.value > 0.0
       && current.filledQuantity > 0 && current.averagePrice.Some?
    {
      WeightedAverageConserves(current.averagePrice.value, current.filledQuantity,
                               report.executionPrice.value, report.filledQuantity);
    }
    assert ConsistentOrder(oms', report.clientOrderId, oms'.states[report.clientOrderId]);
    forall client | client in oms'.states
      ensures ConsistentOrder(oms', client, oms'.states[client])
      ensures client in oms.states && OrderExtends(oms.states[client], oms'.states[client])
    {
      assert ConsistentOrder(oms, client, oms.states[client]);
    }
  }

  /**
    An execution keeps "FILLED means filled" exactly when the report's own status agrees with its
    remaining quantity. `apply_execution` does not check that; only the adapters guarantee it.
   */
  lemma ExecutionKeepsStatus(oms: Oms, report: ExecutionReport)
    requires Consistent(oms) && StatusMatchesFills(oms)
    requires AfterExecution(oms, report).Ok?
    ensures StatusMatchesFills(AfterExecution(oms, report).value)
            <==> (report.status.FILLED? <==> report.remainingQuantity == 0)
  {
    var oms' := AfterExecution(oms, report).value;
    var after := oms'.states[report.clientOrderId];
    assert after.status.FILLED? <==> report.status.FILLED?;
    assert after.filledQuantity == after.orderQuantity <==> report.remainingQuantity == 0;
  }

  // ----- what each transition takes, and what it leaves -----

  /** At most this order has changed. */
  ghost predicate ChangesOnly(before: Oms, after: Oms, client: string) {
    && after.states.Keys == before.states.Keys + {client}
    && (forall other :: other in before.states && other != client ==> after.states[other] == before.states[other])
  }

  ghost predicate SameOrderBut(before: OrderState, after: OrderState, status: Status, brokerOrderId: string) {
    && after.clientOrderId == before.clientOrderId && after.orderQuantity == before.orderQuantity
    && after.filledQuantity == before.filledQuantity && after.averagePrice == before.averagePrice
    && after.command == before.command
    && after.status == status && after.brokerOrderId == brokerOrderId
  }

  predicate CanBeAcknowledged(oms: Oms, client: string) {
    client in oms.states && (oms.states[client].status.SUBMITTED? || oms.states[client].status.ACKED?)
  }

  /** A broker id that is nobody's yet, or this client's already. */
  predicate FreeFor(oms: Oms, brokerOrderId: string, client: string) {
    brokerOrderId != "" && (brokerOrderId in oms.brokerToClient ==> oms.brokerToClient[brokerOrderId] == client)
  }

  /** An intent is new, positive and named; it leaves one more order, submitted and empty. */
  lemma IntentIsTakenExactly(oms: Oms, client: string, quantity: int)
    ensures var r := AfterIntent(oms, client, quantity);
            && (r.Ok? <==> client != "" && quantity > 0 && client !in oms.states)
            && (r.Ok? ==>
                  && ChangesOnly(oms, r.value, client) && r.value.brokerToClient == oms.brokerToClient
                  && r.value.states[client] == OrderState(client, SUBMITTED, "", quantity, 0, None, None))
  {
  }

  /** An acknowledgement accepts or declines an order that has not filled, and touches nothing else of it. */
  lemma AckDecides(oms: Oms, event: OrderAckEvent)
    requires Consistent(oms)
    ensures var client, broker, r := event.clientOrderId, event.brokerOrderId, AfterAck(oms, event);
            && (r.Ok? <==> CanBeAcknowledged(oms, client) && (event.accepted ==> FreeFor(oms, broker, client)))
            && (r.Ok? ==> ChangesOnly(oms, r.value, client) && r.value.states[client].filledQuantity == 0)
            && (r.Ok? && event.accepted ==>
                  && SameOrderBut(oms.states[client], r.value.states[client], ACKED, broker)
                  && r.value.brokerToClient == oms.brokerToClient[broker := client])
            && (r.Ok? && !event.accepted ==>
                  && SameOrderBut(oms.states[client], r.value.states[client], REJECTED, broker)
                  && r.value.brokerToClient == oms.brokerToClient)
  {
    if event.clientOrderId in oms.states {
      assert ConsistentOrder(oms, event.clientOrderId, oms.states[event.clientOrderId]);
    }
  }

  /**
    An execution is taken exactly if its order is open, its quantities add up to the order's, and it names the
    order's broker id or none.
   */
  lemma ExecutionIsTakenExactly(oms: Oms, report: ExecutionReport)
    requires Consistent(oms)
    ensures AfterExecution(oms, report).Ok? <==>
              var client := report.clientOrderId;
              && client in oms.states
              && (oms.states[client].status.ACKED? || oms.states[client].status.PARTIALLY_FILLED?)
              && (report.status.PARTIALLY_FILLED? || report.status.FILLED?)
              && report.filledQuantity > 0 && report.remainingQuantity >= 0
              && oms.states[client].filledQuantity + report.filledQuantity + report.remainingQuantity
                 == oms.states[client].orderQuantity
              && (report.brokerOrderId == "" || report.brokerOrderId == oms.states[client].brokerOrderId)
  {
  }

  /** It fills its order by its quantity, carries the notional of both into the average, and touches nothing else. */
  lemma ExecutionFillsItsOrder(oms: Oms, report: ExecutionReport)
    requires Consistent(oms) && AfterExecution(oms, report).Ok?
    ensures var client, after := report.clientOrderId, AfterExecution(oms, report).value;
            && client in oms.states
            && ChangesOnly(oms, after, client) && after.brokerToClient == oms.brokerToClient
            && ExecutionFills(oms.states[client], after.states[client], report)
  {
    var before := oms.states[report.clientOrderId];
    assert ConsistentOrder(oms, report.clientOrderId, before);
    AverageCarriesNotional(before, report);
  }

  ghost predicate ExecutionFills(before: OrderState, after: OrderState, report: ExecutionReport) {
    && after.clientOrderId == before.clientOrderId && after.brokerOrderId == before.brokerOrderId
    && after.orderQuantity == before.orderQuantity && after.command == before.command
    && after.status == report.status
    && after.filledQuantity == before.filledQuantity + report.filledQuantity
    && CarriesNotional(before, report, after.averagePrice)
  }

  /** A report without a positive price leaves the average; the first price is the average; later ones are weighed. */
  ghost predicate CarriesNotional(before: OrderState, report: ExecutionReport, average: Option<real>) {
    if report.executionPrice.None? || report.executionPrice.value <= 0.0 then average == before.averagePrice
    else if before.averagePrice.None? then average == report.executionPrice
    else
      && average.Some?
      && average.value * (before.filledQuantity + report.filledQuantity) as real
         == before.averagePrice.value * before.filledQuantity as real
            + report.executionPrice.value * report.filledQuantity as real
  }

  lemma AverageCarriesNotional(before: OrderState, report: ExecutionReport)
    requires report.filledQuantity > 0 && (before.averagePrice.Some? ==> before.filledQuantity > 0)
    ensures CarriesNotional(before, report, AveragePriceAfter(before, report))
  {
    if before.averagePrice.Some? && report.executionPrice.Some? {
      WeightedAverageConserves(before.averagePrice.value, before.filledQuantity,
                               report.executionPrice.value, report.filledQuantity);
    }
  }

  /** A broker id fetches the command of the order that goes by it now, and no other. */
  lemma CommandIsFetchedExactly(oms: Oms, brokerOrderId: string, command: BrokerOrderCommand)
    requires Consistent(oms)
    ensures CommandFor(oms, brokerOrderId) == Ok(command) <==>
              && brokerOrderId in oms.brokerToClient
              && var state := oms.states[oms.brokerToClient[brokerOrderId]];
                 state.brokerOrderId == brokerOrderId && state.command == Some(command)
  {
  }

  /** A broker id resolves to the order it leads to while that is open, with what it has filled so far. */
  lemma CorrelationIsResolvedExactly(oms: Oms, brokerOrderId: string)
    requires Consistent(oms)
    ensures ResolveCorrelation(oms, brokerOrderId).Ok? <==>
              && brokerOrderId in oms.brokerToClient
              && var status := oms.states[oms.brokerToClient[brokerOrderId]].status;
                 status.ACKED? || status.PARTIALLY_FILLED?
    ensures ResolveCorrelation(oms, brokerOrderId).Ok? ==>
              var state := oms.states[oms.brokerToClient[brokerOrderId]];
              ResolveCorrelation(oms, brokerOrderId).value
              == ExecutionCorrelation(oms.brokerToClient[brokerOrderId], brokerOrderId, state.orderQuantity,
                                      state.filledQuantity, state.averagePrice)
  {
    if brokerOrderId in oms.brokerToClient {
      var client := oms.brokerToClient[brokerOrderId];
      assert ConsistentOrder(oms, client, oms.states[client]);
    }
  }

  /** Two bound orders never share a broker id, and a bound order's command is fetched by its own id. */
  lemma BrokerIdsAreUnambiguous(oms: Oms, a: string, b: string)
    requires Consistent(oms)
    requires a in oms.states && b in oms.states && Bound(oms.states[a]) && Bound(oms.states[b])
    ensures oms.states[a].brokerOrderId == oms.states[b].brokerOrderId ==> a == b
    ensures CommandFor(oms, oms.states[a].brokerOrderId)
            == (match oms.states[a].command
                case Some(command) => Ok(command)
                case None => Err(BROKER_ORDER_COMMAND_NOT_REGISTERED))
  {
    assert ConsistentOrder(oms, a, oms.states[a]) && ConsistentOrder(oms, b, oms.states[b]);
  }

  // ----- the object -----

  class OrderStateMachine {
    var states: map<string, OrderState>
    var brokerToClient: map<string, string>

    ghost function Value(): Oms
      reads this
    {
      Oms(states, brokerToClient)
    }

    constructor ()
      ensures Value() == EMPTY
    {
      states := map[];
      brokerToClient := map[];
    }

    ghost predicate Performed(before: Oms, after: Result<Oms, Error>, client: string, r: Result<OrderState, Error>)
      reads this
    {
      match after
      case Ok(oms) => Value() == oms && client in oms.states && r == Ok(oms.states[client])
      case Err(error) => Value() == before && r == Err(error)
    }

    method ApplyIntent(clientOrderId: string, quantity: int) returns (r: Result<OrderState, Error>)
      modifies this
      ensures Performed(old(Value()), AfterIntent(old(Value()), clientOrderId, quantity), clientOrderId, r)
    {
      if clientOrderId == "" { return Err(CLIENT_ORDER_ID_REQUIRED); }
      if quantity <= 0 { return Err(ORDER_QUANTITY_INVALID); }
      if clientOrderId in states { return Err(ORDER_INTENT_ALREADY_REGISTERED); }
      var state := OrderState(clientOrderId, SUBMITTED, "", quantity, 0, None, None);
      states := states[clientOrderId := state];
      return Ok(state);
    }

    method RegisterBrokerOrderCommand(command: BrokerOrderCommand) returns (r: Result<OrderState, Error>)
      modifies this
      ensures Performed(old(Value()), AfterRegister(old(Value()), command), command.clientOrderId, r)
    {
      if command.clientOrderId == "" { return Err(CLIENT_ORDER_ID_REQUIRED); }
      if command.clientOrderId !in states { return Err(ORDER_NOT_REGISTERED); }
      var current := states[command.clientOrderId];
      if current.status != SUBMITTED && current.status != ACKED { return Err(BROKER_COMMAND_AFTER_INVALID_STATE); }
      if command.quantity != current.orderQuantity { return Err(BROKER_COMMAND_QUANTITY_MISMATCH); }
      if command.instrumentIdentity.Some? && command.instrumentId != command.instrumentIdentity.value.instrumentId {
        return Err(BROKER_COMMAND_INSTRUMENT_ID_MISMATCH);
      }
      var state := current.(command := Some(command));
      states := states[command.clientOrderId := state];
      return Ok(state);
    }

    method ApplyAck(event: OrderAckEvent) returns (r: Result<OrderState, Error>)
      modifies this
      ensures Performed(old(Value()), AfterAck(old(Value()), event), event.clientOrderId, r)
    {
      if event.clientOrderId == "" { return Err(CLIENT_ORDER_ID_REQUIRED); }
      if event.clientOrderId !in states { return Err(ORDER_NOT_REGISTERED); }
      var current := states[event.clientOrderId];
      if current.status != SUBMITTED && current.status != ACKED { return Err(ACK_AFTER_TERMINAL_STATE); }
      if event.accepted && event.brokerOrderId == "" { return Err(BROKER_ORDER_ID_REQUIRED_FOR_ACCEPTED_ACK); }
      if event.accepted {
        if event.brokerOrderId in brokerToClient && brokerToClient[event.brokerOrderId] != event.clientOrderId {
          return Err(BROKER_ORDER_ID_ALREADY_CORRELATED);
        }
        brokerToClient := brokerToClient[event.brokerOrderId := event.clientOrderId];
      }
      var state := OrderState(
        current.clientOrderId, if event.accepted then ACKED else REJECTED, event.brokerOrderId,
        current.orderQuantity, current.filledQuantity, current.command, current.averagePrice);
      states := states[event.clientOrderId := state];
      return Ok(state);
    }

    method ApplyExecution(report: ExecutionReport) returns (r: Result<OrderState, Error>)
      modifies this
      ensures Performed(old(Value()), AfterExecution(old(Value()), report), report.clientOrderId, r)
    {
      if report.clientOrderId !in states { return Err(ORDER_NOT_REGISTERED); }
      var current := states[report.clientOrderId];
      if current.status != ACKED && current.status != PARTIALLY_FILLED { return Err(EXECUTION_BEFORE_ACK); }
      if report.status != PARTIALLY_FILLED && report.status != FILLED { return Err(UNSUPPORTED_EXECUTION_STATUS); }
      if report.filledQuantity <= 0 { return Err(FILLED_QUANTITY_INVALID); }
      var cumulative := current.filledQuantity + report.filledQuantity;
      if cumulative > current.orderQuantity { return Err(FILLED_QUANTITY_EXCEEDS_ORDER); }
      if report.remainingQuantity != current.orderQuantity - cumulative { return Err(REMAINING_QUANTITY_MISMATCH); }
      if report.brokerOrderId != "" && current.brokerOrderId != report.brokerOrderId {
        return Err(BROKER_ORDER_ID_MISMATCH);
      }
      var average := current.averagePrice;
      if report.executionPrice.Some? && report.executionPrice.value > 0.0 {
        if current.filledQuantity == 0 || average.None? {
          average := report.executionPrice;
        } else {
          average := Some(WeightedAverage(average.value, current.filledQuantity,
                                          report.executionPrice.value, report.filledQuantity));
        }
      }
      var state := OrderState(
        report.clientOrderId, report.status,
        if report.brokerOrderId != "" then report.brokerOrderId else current.brokerOrderId,
        current.orderQuantity, cumulative, current.command, average);
      states := states[report.clientOrderId := state];
      assert average == AveragePriceAfter(current, report);
      return Ok(state);
    }

    method ResolveExecutionCorrelation(brokerOrderId: string) returns (r: Result<ExecutionCorrelation, Error>)
      ensures r == ResolveCorrelation(Value(), brokerOrderId)
    {
      if brokerOrderId == "" { return Err(BROKER_ORDER_ID_REQUIRED); }
      if brokerOrderId !in brokerToClient { return Err(BROKER_ORDER_ID_NOT_CORRELATED); }
      var client := brokerToClient[brokerOrderId];
      if client !in states { return Err(CORRELATED_ORDER_STATE_MISSING); }
      var state := states[client];
      if state.status != ACKED && state.status != PARTIALLY_FILLED { return Err(EXECUTION_CORRELATION_STATE_INVALID); }
      return Ok(ExecutionCorrelation(
        state.clientOrderId, brokerOrderId, state.orderQuantity, state.filledQuantity, state.averagePrice));
    }

    method GetBrokerOrderCommand(brokerOrderId: string) returns (r: Result<BrokerOrderCommand, Error>)
      ensures r == CommandFor(Value(), brokerOrderId)
    {
      if brokerOrderId == "" { return Err(BROKER_ORDER_ID_REQUIRED); }
      if brokerOrderId !in brokerToClient { return Err(BROKER_ORDER_ID_NOT_CORRELATED); }
      var client := brokerToClient[brokerOrderId];
      if client !in states || states[client].command.None? { return Err(BROKER_ORDER_COMMAND_NOT_REGISTERED); }
      if states[client].brokerOrderId != brokerOrderId { return Err(BROKER_ORDER_ID_MISMATCH); }
      return Ok(states[client].command.value);
    }
  }
}
