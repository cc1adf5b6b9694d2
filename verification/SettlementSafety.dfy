/** What holds in every state that any run of the settlement protocol reaches. */
module SettlementSafety {
  import opened Contracts
  import opened Ledger
  import opened OrderStates
  import opened LivePosition
  import opened Settlement
  import opened ExecutionReports
  import opened RecoveryService
  import opened RecoveryAgreement
  import opened OrderRouting
  import opened SettlementRuns

  /** The state after any events from a flat start. */
  ghost function Reached(instrumentId: string, events: seq<Event>): (run: Run)
    ensures Invariant(run)
  {
    StartHoldsInvariant(instrumentId);
    Execute(Start(instrumentId), events)
  }

  lemma {:induction false} RunsExtend(run: Run, events: seq<Event>)
    requires Invariant(run)
    ensures Extends(run.world.oms, Execute(run, events).world.oms)
    ensures Execute(run, events).world.position.instrumentId == run.world.position.instrumentId
    decreases |events|
  {
    if events != [] {
      var before := Execute(run, events[..|events| - 1]);
      RunsExtend(run, events[..|events| - 1]);
      StepKeepsInvariant(before, events[|events| - 1]);
      StepKeepsInstrument(before, events[|events| - 1]);
      ExtendsTransitive(run.world.oms, before.world.oms, Execute(run, events).world.oms);
    }
  }

  lemma StepKeepsInstrument(run: Run, event: Event)
    requires Invariant(run)
    ensures Step(run, event).world.position.instrumentId == run.world.position.instrumentId
  {
    match event
    case ReceiveNotice(notice) =>
      if RealtimeReport(run.world.oms, notice).Ok? {
        SettleAllOrNothing(run.world, RealtimeReport(run.world.oms, notice).value);
      }
    case RecoverResponse(response) =>
      if NormalizedReports(response, ContextsOf(run.world.oms)).Ok? {
        BatchKeepsInstrument(run.world, NormalizedReports(response, ContextsOf(run.world.oms)).value);
      }
    case Deliver(report) =>
      SettleAllOrNothing(run.world, report);
    case _ =>
  }

  lemma {:induction false} BatchKeepsInstrument(w: World, reports: seq<ExecutionReport>)
    requires Sound(w)
    ensures SettleAll(w, reports).world.position.instrumentId == w.position.instrumentId
  {
    if reports != [] {
      BatchKeepsInstrument(w, reports[..|reports| - 1]);
      SettleAllOrNothing(SettleAll(w, reports[..|reports| - 1]).world, reports[|reports| - 1]);
    }
  }

  /**
    The position is the sum over all orders of side times filled quantity, for every interleaving of
    routing, acknowledgement, notices, recoveries, stale deliveries and replays. Orders whose command
    names another instrument, or no tradable side, are filled in the OMS only and do not count.
   */
  lemma PositionIsTheSumOfFills(instrumentId: string, events: seq<Event>)
    ensures var w := Reached(instrumentId, events).world;
            Signed(w.position) == OrderTotal(instrumentId, w.oms).quantity
  {
    StartHoldsInvariant(instrumentId);
    RunsExtend(Start(instrumentId), events);
  }

  /** Side times filled quantity, summed over all orders whatever they name. */
  ghost function SignedFills(oms: Oms): int {
    Total(AnyContributions(oms)).quantity
  }

  function AnyContributions(oms: Oms): map<string, Amount> {
    map client | client in oms.states :: AnyContribution(oms.states[client])
  }

  function AnyContribution(state: OrderState): Amount {
    if state.command.Some?
    then Contribution(state.command.value.instrumentId, state)
    else ZERO
  }

  /** No event hands the OMS a command for another instrument. */
  predicate NamesOnly(event: Event, instrumentId: string) {
    match event
    case RegisterCommand(command) => command.instrumentId == instrumentId
    case RouteOrder(command, _, _) => command.instrumentId == instrumentId
    case _ => true
  }

  ghost predicate CommandsName(oms: Oms, instrumentId: string) {
    forall client :: client in oms.states && oms.states[client].command.Some? ==>
      oms.states[client].command.value.instrumentId == instrumentId
  }

  lemma {:induction false} CommandsAreNamed(run: Run, events: seq<Event>, instrumentId: string)
    requires Invariant(run) && CommandsName(run.world.oms, instrumentId)
    requires forall event :: event in events ==> NamesOnly(event, instrumentId)
    ensures CommandsName(Execute(run, events).world.oms, instrumentId)
    decreases |events|
  {
    if events != [] {
      var front, last := events[..|events| - 1], events[|events| - 1];
      assert last in events && forall event :: event in front ==> event in events;
      CommandsAreNamed(run, front, instrumentId);
      StepNamesOnly(Execute(run, front), last, instrumentId);
    }
  }

  lemma StepNamesOnly(run: Run, event: Event, instrumentId: string)
    requires Invariant(run) && CommandsName(run.world.oms, instrumentId) && NamesOnly(event, instrumentId)
    ensures CommandsName(Step(run, event).world.oms, instrumentId)
  {
    match event
    case RecoverResponse(response) =>
      if NormalizedReports(response, ContextsOf(run.world.oms)).Ok? {
        BatchNamesOnly(run.world, NormalizedReports(response, ContextsOf(run.world.oms)).value, instrumentId);
      }
    case ReceiveNotice(notice) =>
      if RealtimeReport(run.world.oms, notice).Ok? {
        SettlementNamesOnly(run.world, RealtimeReport(run.world.oms, notice).value, instrumentId);
      }
    case Deliver(report) =>
      SettlementNamesOnly(run.world, report, instrumentId);
    case RouteOrder(command, approved, reply) =>
      RouteNamesOnly(run.world.oms, command, approved, reply, instrumentId);
    case HoldNotice(_) | HoldResponse(_) =>
    case _ => OrderEventNamesOnly(run, event, instrumentId);
  }

  lemma OrderEventNamesOnly(run: Run, event: Event, instrumentId: string)
    requires Invariant(run) && CommandsName(run.world.oms, instrumentId) && NamesOnly(event, instrumentId)
    requires event.Intent? || event.RegisterCommand? || event.Ack?
    ensures CommandsName(Step(run, event).world.oms, instrumentId)
  {
  }

  lemma RouteNamesOnly(
    oms: Oms, command: BrokerOrderCommand, approved: bool, reply: BrokerReply, instrumentId: string)
    requires CommandsName(oms, instrumentId) && command.instrumentId == instrumentId
    ensures CommandsName(Route(oms, command, approved, reply).oms, instrumentId)
  {
    if command.clientOrderId in oms.states {
      SubmissionNamesOnly(oms, command, reply, instrumentId);
    } else if AfterIntent(oms, command.clientOrderId, command.quantity).Ok? {
      var intended := AfterIntent(oms, command.clientOrderId, command.quantity).value;
      SubmissionNamesOnly(intended, command, reply, instrumentId);
    }
  }

  lemma SubmissionNamesOnly(oms: Oms, command: BrokerOrderCommand, reply: BrokerReply, instrumentId: string)
    requires CommandsName(oms, instrumentId) && command.instrumentId == instrumentId
    ensures CommandsName(AfterSubmission(oms, command, reply).oms, instrumentId)
  {
  }

  lemma SettlementNamesOnly(w: World, report: ExecutionReport, instrumentId: string)
    requires Sound(w) && CommandsName(w.oms, instrumentId)
    ensures CommandsName(Settle(w, report).world.oms, instrumentId)
  {
    SettleAllOrNothing(w, report);
  }

  lemma {:induction false} BatchNamesOnly(w: World, reports: seq<ExecutionReport>, instrumentId: string)
    requires Sound(w) && CommandsName(w.oms, instrumentId)
    ensures CommandsName(SettleAll(w, reports).world.oms, instrumentId)
  {
    if reports != [] {
      BatchNamesOnly(w, reports[..|reports| - 1], instrumentId);
      SettlementNamesOnly(SettleAll(w, reports[..|reports| - 1]).world, reports[|reports| - 1], instrumentId);
    }
  }

  /** If every command names this instrument, the position is the signed sum over all orders. */
  lemma PositionIsTheSumOfAllFills(instrumentId: string, events: seq<Event>)
    requires forall event :: event in events ==> NamesOnly(event, instrumentId)
    ensures var w := Reached(instrumentId, events).world;
            Signed(w.position) == SignedFills(w.oms)
  {
    PositionIsTheSumOfFills(instrumentId, events);
    StartHoldsInvariant(instrumentId);
    CommandsAreNamed(Start(instrumentId), events, instrumentId);
    NamedOrdersContribute(instrumentId, Reached(instrumentId, events).world.oms);
  }

  lemma NamedOrdersContribute(instrumentId: string, oms: Oms)
    requires CommandsName(oms, instrumentId)
    ensures OrderTotal(instrumentId, oms).quantity == SignedFills(oms)
  {
    forall client | client in oms.states
      ensures Contribution(instrumentId, oms.states[client]) == AnyContribution(oms.states[client])
    {
    }
    assert Contributions(instrumentId, oms) == AnyContributions(oms);
  }

  /**
    Cost agreement. An order's average price times its fills is the notional of its settled reports.
    Whatever the position has opened, reduced, closed or turned, its cost is the notional of all
    its orders plus the profit realised by closing; one-sided fills realise none, and a flat position
    has realised exactly what its orders were sold for beyond what they were bought for.
   */
  lemma CostsAgree(instrumentId: string, events: seq<Event>, client: string, side: Side)
    ensures var run := Reached(instrumentId, events);
            var oms := run.world.oms;
            && (client in oms.states ==>
                  SettledAmount(run.settled, client)
                  == Amount(oms.states[client].filledQuantity,
                            Cost(oms.states[client].averagePrice, oms.states[client].filledQuantity)))
            && SignedCost(run.world.position) == OrderTotal(instrumentId, oms).notional + run.realised
            && (Tradable(side) && OneSided(run.world, side) ==> run.realised == 0.0)
            && (run.world.position.qty == 0 ==> run.realised == -OrderTotal(instrumentId, oms).notional)
  {
    var run := Reached(instrumentId, events);
    StartHoldsInvariant(instrumentId);
    RunsExtend(Start(instrumentId), events);
    if client in run.world.oms.states {
      assert OrderSettled(run.settled, client, run.world.oms.states[client]);
    }
  }

  /** Fills stay within the order, start at nothing, and FILLED means exactly filled. */
  lemma FillsStayWithinOrders(instrumentId: string, events: seq<Event>, client: string)
    requires client in Reached(instrumentId, events).world.oms.states
    ensures var state := Reached(instrumentId, events).world.oms.states[client];
            && state.filledQuantity <= state.orderQuantity
            && (state.status.SUBMITTED? || state.status.ACKED? || state.status.REJECTED? ==> state.filledQuantity == 0)
            && (state.status.PARTIALLY_FILLED? ==> 0 < state.filledQuantity < state.orderQuantity)
            && (state.status.FILLED? <==> state.filledQuantity == state.orderQuantity)
  {
    var oms := Reached(instrumentId, events).world.oms;
    assert ConsistentOrder(oms, client, oms.states[client]);
  }

  /**
    Whatever happens next, a filled or rejected order stays exactly as it is, a broker id stays with
    its client, and once an order has a fill its side, its command and its broker id are frozen.
   */
  lemma TheSettledPastStays(run: Run, events: seq<Event>, client: string, broker: string)
    requires Invariant(run)
    ensures var before, after := run.world.oms, Execute(run, events).world.oms;
            && (broker in before.brokerToClient ==>
                  broker in after.brokerToClient && after.brokerToClient[broker] == before.brokerToClient[broker])
            && (client in before.states ==>
                  && client in after.states
                  && after.states[client].filledQuantity >= before.states[client].filledQuantity
                  && (before.states[client].status.FILLED? || before.states[client].status.REJECTED? ==>
                        after.states[client] == before.states[client])
                  && (before.states[client].filledQuantity > 0 ==>
                        && after.states[client].command == before.states[client].command
                        && after.states[client].brokerOrderId == before.states[client].brokerOrderId))
  {
    RunsExtend(run, events);
    if client in run.world.oms.states {
      assert OrderExtends(run.world.oms.states[client], Execute(run, events).world.oms.states[client]);
    }
  }

  /**
    A declined order is rejected for good. In any run a declining acknowledgement that returns takes exactly its own
    order to REJECTED, unfilled; whatever happens next, the order stays just so and every further one is refused.
   */
  lemma DeclinedForGood(instrumentId: string, events: seq<Event>, event: OrderAckEvent, more: seq<Event>)
    requires !event.accepted && AfterAck(Reached(instrumentId, events).world.oms, event).Ok?
    ensures var client, before := event.clientOrderId, Reached(instrumentId, events);
            var declined := Step(before, Ack(event));
            && Invariant(declined)
            && var after := Execute(declined, more).world.oms;
               && client in before.world.oms.states && client in after.states
               && SameOrderBut(before.world.oms.states[client], after.states[client], REJECTED, event.brokerOrderId)
               && after.states[client].filledQuantity == 0
               && (forall again: OrderAckEvent :: again.clientOrderId == client ==> AfterAck(after, again).Err?)
  {
    var before := Reached(instrumentId, events);
    StepKeepsInvariant(before, Ack(event));
    AckDecides(before.world.oms, event);
    TheSettledPastStays(Step(before, Ack(event)), more, event.clientOrderId, "");
  }

  /** A broker id is used by one bound order only, in every reachable state. */
  lemma BrokerIdsStayUnambiguous(instrumentId: string, events: seq<Event>, a: string, b: string)
    requires var oms := Reached(instrumentId, events).world.oms;
             && a in oms.states && b in oms.states && Bound(oms.states[a]) && Bound(oms.states[b])
    ensures var oms := Reached(instrumentId, events).world.oms;
            && (oms.states[a].brokerOrderId == oms.states[b].brokerOrderId ==> a == b)
            && oms.states[a].brokerOrderId in oms.brokerToClient
            && oms.brokerToClient[oms.states[a].brokerOrderId] == a
  {
    var oms := Reached(instrumentId, events).world.oms;
    BrokerIdsAreUnambiguous(oms, a, b);
    assert ConsistentOrder(oms, a, oms.states[a]);
  }

  /**
    A report that was built at some time and is delivered for the first time now settles only if its
    order has filled, since, exactly as far as it had then; otherwise it is refused, changes nothing
    and stays unconsumed. (An order can also have been rejected since, by a second acknowledgement.)
   */
  lemma StaleReportsAreRefused(instrumentId: string, events: seq<Event>, report: ExecutionReport)
    requires var run := Reached(instrumentId, events);
             report in run.built && report.executionId !in run.world.seen
    ensures var w := Reached(instrumentId, events).world;
            && report.clientOrderId in w.oms.states
            && var state := w.oms.states[report.clientOrderId];
               && (state.filledQuantity != BuiltAgainst(state.orderQuantity, report) ==>
                     Settle(w, report).world == w && Settle(w, report).result.Err?)
               && (state.filledQuantity == BuiltAgainst(state.orderQuantity, report) ==>
                     (Settle(w, report).result.Ok? <==>
                     Settleable(w, report.brokerOrderId) && (state.status.ACKED? || state.status.PARTIALLY_FILLED?)))
  {
    BuiltReportSettlesAtItsVersion(Reached(instrumentId, events).world, report);
  }

  lemma BuiltReportSettlesAtItsVersion(w: World, report: ExecutionReport)
    requires Sound(w) && StatusMatchesFills(w.oms) && AdapterBuilt(w.oms, report) && report.executionId !in w.seen
    ensures var state := w.oms.states[report.clientOrderId];
            && (state.filledQuantity != BuiltAgainst(state.orderQuantity, report) ==>
                  Settle(w, report).world == w && Settle(w, report).result.Err?)
            && (state.filledQuantity == BuiltAgainst(state.orderQuantity, report) ==>
                  (Settle(w, report).result.Ok? <==>
                     Settleable(w, report.brokerOrderId) && (state.status.ACKED? || state.status.PARTIALLY_FILLED?)))
  {
    var state := w.oms.states[report.clientOrderId];
    assert ConsistentOrder(w.oms, report.clientOrderId, state);
    RemainingQuantityIsAVersion(w, report);
    if Admitted(w, report) {
      AdmissionAdvances(w, report);
      AdmittedCommandIsOwn(w, report);
    } else {
      RefusedStaysUnconsumed(w, report);
    }
  }

  /**
    Where settlement is partial: a command for another instrument is routed and accepted like any
    other, and when a fill of it is noticed the identity is consumed and the order is filled, but the
    fill adapter refuses and the position stays behind.
   */
  lemma MisroutedFillIsPartial(instrumentId: string, events: seq<Event>, command: BrokerOrderCommand,
                               reply: BrokerReply, notice: ExecutionNotice)
    requires var route := Route(Reached(instrumentId, events).world.oms, command, true, reply);
             && route.result.Ok? && route.result.value.accepted
             && notice.orderNumber == route.result.value.brokerOrderId
             && command.instrumentId != instrumentId
    requires RealtimeFrame(notice.rawFrame) !in Reached(instrumentId, events).world.seen
    requires notice.isExecution && notice.quantity == Some(command.quantity) && command.quantity > 0
    requires notice.price.Some? && notice.price.value > 0.0
    ensures var before := Step(Reached(instrumentId, events), RouteOrder(command, true, reply)).world;
            && Sound(before)
            && RealtimeReport(before.oms, notice).Ok?
            && var outcome := Settle(before, RealtimeReport(before.oms, notice).value);
               && outcome.result == Err(INSTRUMENT_ID_MISMATCH)
               && outcome.world.seen == before.seen + {RealtimeFrame(notice.rawFrame)}
               && command.clientOrderId in outcome.world.oms.states
               && outcome.world.oms.states[command.clientOrderId].filledQuantity == command.quantity
               && outcome.world.position == before.position
  {
    var run := Reached(instrumentId, events);
    StartHoldsInvariant(instrumentId);
    RunsExtend(Start(instrumentId), events);
    StepKeepsInvariant(run, RouteOrder(command, true, reply));
    AcceptedRouteBinds(run.world.oms, command, true, reply);
    var before := Step(run, RouteOrder(command, true, reply)).world;
    FillOfMisroutedOrder(before, command, notice);
  }

  lemma FillOfMisroutedOrder(w: World, command: BrokerOrderCommand, notice: ExecutionNotice)
    requires Sound(w) && command.instrumentId != w.position.instrumentId
    requires command.clientOrderId in w.oms.states
    requires w.oms.states[command.clientOrderId]
             == OrderState(command.clientOrderId, ACKED, notice.orderNumber, command.quantity, 0, Some(command), None)
    requires CommandFor(w.oms, notice.orderNumber) == Ok(command)
    requires RealtimeFrame(notice.rawFrame) !in w.seen
    requires notice.isExecution && notice.quantity == Some(command.quantity) && command.quantity > 0
    requires notice.price.Some? && notice.price.value > 0.0
    ensures RealtimeReport(w.oms, notice).Ok?
    ensures var outcome := Settle(w, RealtimeReport(w.oms, notice).value);
            && outcome.result == Err(INSTRUMENT_ID_MISMATCH)
            && outcome.world.seen == w.seen + {RealtimeFrame(notice.rawFrame)}
            && command.clientOrderId in outcome.world.oms.states
            && outcome.world.oms.states[command.clientOrderId].filledQuantity == command.quantity
            && outcome.world.position == w.position
  {
    assert ConsistentOrder(w.oms, command.clientOrderId, w.oms.states[command.clientOrderId]);
    assert w.oms.brokerToClient[notice.orderNumber] == command.clientOrderId;
    var report := RealtimeReport(w.oms, notice).value;
    SettleAllOrNothing(w, report);
  }

  /** Such a run exists from the very start: one order for another instrument, accepted and filled. */
  lemma PartialSettlementIsReachable(instrumentId: string, broker: string, frame: string)
    requires broker != ""
    ensures exists command, reply, notice ::
              var before := Step(Reached(instrumentId, []), RouteOrder(command, true, reply)).world;
              && Sound(before) && RealtimeReport(before.oms, notice).Ok?
              && var outcome := Settle(before, RealtimeReport(before.oms, notice).value);
                 outcome.result.Err? && outcome.world.seen != before.seen && outcome.world.oms != before.oms
                 && outcome.world.position == before.position
  {
    var command := BrokerOrderCommand(
      "order", "not " + instrumentId, BUY, 1, "LIMIT",
      None, None, None, None, None, None, None, None, None, None, None);
    assert |command.instrumentId| != |instrumentId|;
    var reply := Replied(BrokerOrderResponse("order", true, broker));
    var notice := ExecutionNotice(frame, broker, true, Some(1), Some(1.0));
    assert Reached(instrumentId, []) == Start(instrumentId);
    MisroutedFillIsPartial(instrumentId, [], command, reply, notice);
    var before := Step(Reached(instrumentId, []), RouteOrder(command, true, reply)).world;
    AcceptedRouteBinds(EMPTY, command, true, reply);
    var outcome := Settle(before, RealtimeReport(before.oms, notice).value);
    assert before.seen == {};
    assert outcome.world.oms.states["order"] != before.oms.states["order"];
  }

  /**
    The realtime path, exactly, in every run. A notice that the adapter accepts is settled into all three stores if
    and only if its frame is new and its order is named by its current id, with a command for this instrument; then
    the order has filled by its quantity, and the position has moved by it on the command's side.
   */
  lemma NoticeSettlesExactly(instrumentId: string, events: seq<Event>, notice: ExecutionNotice)
    requires NoticeFits(Reached(instrumentId, events).world.oms, notice)
    ensures var w := Reached(instrumentId, events).world;
            && RealtimeReport(w.oms, notice).Ok?
            && var outcome := Settle(w, RealtimeReport(w.oms, notice).value);
               var client := w.oms.brokerToClient[notice.orderNumber];
               && (outcome.result.Ok? && outcome.world != w <==>
                     RealtimeFrame(notice.rawFrame) !in w.seen && Settleable(w, notice.orderNumber))
               && (RealtimeFrame(notice.rawFrame) in w.seen ==> outcome.world == w)
               && (outcome.result.Ok? && outcome.world != w ==>
                     && outcome.world.seen == w.seen + {RealtimeFrame(notice.rawFrame)}
                     && client in w.oms.states && ChangesOnly(w.oms, outcome.world.oms, client)
                     && outcome.world.oms.states[client].filledQuantity
                        == w.oms.states[client].filledQuantity + notice.quantity.value
                     && w.oms.states[client].command.Some?
                     && Signed(outcome.world.position) == Signed(w.position)
                        + Sign(w.oms.states[client].command.value.side) * notice.quantity.value)
  {
    var w := Reached(instrumentId, events).world;
    NoticeIsAcceptedExactly(w.oms, notice);
    AcceptedNoticeSettles(w, notice, RealtimeReport(w.oms, notice).value);
  }

  lemma AcceptedNoticeSettles(w: World, notice: ExecutionNotice, report: ExecutionReport)
    requires Sound(w) && NoticeFits(w.oms, notice)
    requires ReportsNotice(OpenOrderOf(w.oms, notice.orderNumber).value, notice, report)
    ensures var outcome, client := Settle(w, report), report.clientOrderId;
            && client == w.oms.brokerToClient[notice.orderNumber]
            && (outcome.result.Ok? && outcome.world != w <==>
                  report.executionId !in w.seen && Settleable(w, notice.orderNumber))
            && (report.executionId in w.seen ==> outcome.world == w)
            && (outcome.result.Ok? && outcome.world != w ==>
                  && AllAdvanced(w, report, outcome.world)
                  && ChangesOnly(w.oms, outcome.world.oms, client)
                  && CommandFor(w.oms, report.brokerOrderId) == Ok(w.oms.states[client].command.value))
  {
    var client := w.oms.brokerToClient[notice.orderNumber];
    assert ConsistentOrder(w.oms, client, w.oms.states[client]);
    SettleAllOrNothing(w, report);
    if report.executionId !in w.seen {
      RemainingQuantityIsAVersion(w, report);
      if AfterExecution(w.oms, report).Ok? {
        ExecutionFillsItsOrder(w.oms, report);
      }
      assert Admitted(w, report) ==> Settle(w, report).world.seen != w.seen;
    }
  }

  /** No execution is settled twice, however often its report is delivered. */
  lemma NothingIsSettledTwice(instrumentId: string, events: seq<Event>, i: nat, j: nat)
    requires i < j < |Reached(instrumentId, events).settled|
    ensures var settled := Reached(instrumentId, events).settled;
            settled[i].executionId != settled[j].executionId
  {
    assert SettledOnce(Reached(instrumentId, events).settled, Reached(instrumentId, events).world.seen);
  }

  /** Every report that a recovery emits is new to the dedup gate, and its batch never repeats an identity. */
  lemma SnapshotsAreFresh(instrumentId: string, events: seq<Event>, rows: seq<Row>)
    requires NormalizedReports(Some(rows), ContextsOf(Reached(instrumentId, events).world.oms)).Ok?
    ensures var w := Reached(instrumentId, events).world;
            var reports := NormalizedReports(Some(rows), ContextsOf(w.oms)).value;
            && (forall report :: report in reports ==> report.executionId !in w.seen)
            && DistinctExecutionIds(reports)
  {
    var w := Reached(instrumentId, events).world;
    NormalizedShadowsOms(w.oms, rows);
    var shadow := Normalized(rows, ContextsOf(w.oms)).value;
    forall report | report in shadow.reports
      ensures report.executionId !in w.seen
    {
      assert ReportOfBatch(w.oms, shadow, report);
      assert ShadowsOrder(w.oms, shadow, report.brokerOrderId);
      ContextIsOwn(w.oms, report.brokerOrderId);
    }
    BatchIdsAreDistinct(w.oms, rows);
  }

  lemma {:induction false} BatchIdsAreDistinct(oms: Oms, rows: seq<Row>)
    requires Consistent(oms) && Normalized(rows, ContextsOf(oms)).Ok?
    ensures DistinctExecutionIds(Normalized(rows, ContextsOf(oms)).value.reports)
  {
    if rows != [] {
      var front, row := rows[..|rows| - 1], rows[|rows| - 1];
      BatchIdsAreDistinct(oms, front);
      NormalizedShadowsOms(oms, front);
      var before := Normalized(front, ContextsOf(oms)).value;
      var begun := OpenOrder(before, row.orderNumber, ContextsOf(oms)).value;
      BeginningShadowsOms(oms, before, row.orderNumber);
      NextIdIsDistinct(oms, begun, row);
      OneMoreDistinctId(begun.reports, AfterKnownRow(begun, row).value.reports);
    }
  }

  ghost predicate DistinctExecutionIds(reports: seq<ExecutionReport>) {
    forall i, j :: 0 <= i < j < |reports| ==> reports[i].executionId != reports[j].executionId
  }

  lemma OneMoreDistinctId(reports: seq<ExecutionReport>, more: seq<ExecutionReport>)
    requires DistinctExecutionIds(reports) && reports <= more && |more| <= |reports| + 1
    requires forall report :: report in reports && |more| > |reports| ==>
               report.executionId != more[|reports|].executionId
    ensures DistinctExecutionIds(more)
  {
  }

  lemma NextIdIsDistinct(oms: Oms, shadow: Shadow, row: Row)
    requires Consistent(oms) && ShadowsOms(oms, shadow)
    requires row.Row? && row.orderNumber in shadow.contexts && AfterKnownRow(shadow, row).Ok?
    ensures var after := AfterKnownRow(shadow, row).value.reports;
            && shadow.reports <= after
            && |after| <= |shadow.reports| + 1
            && (forall report :: report in shadow.reports && |after| > |shadow.reports| ==>
                  report.executionId != after[|shadow.reports|].executionId)
  {
    KnownRowReports(shadow, row);
    var context := CurrentContext(shadow, row.orderNumber);
    if RowReport(row, context).value.Some? {
      assert ShadowsOrder(oms, shadow, row.orderNumber);
      RowReportIsAdapterBuilt(oms, row, context);
      forall report | report in shadow.reports
        ensures report.executionId != RowReport(row, context).value.value.executionId
      {
        assert ReportOfBatch(oms, shadow, report);
      }
    }
  }

  /** Recovery in the midst of any run: it agrees with the broker, and doing it again changes nothing. */
  lemma RecoveryInAnyRun(instrumentId: string, events: seq<Event>, rows: seq<Row>)
    requires var w := Reached(instrumentId, events).world;
             && NormalizedReports(Some(rows), ContextsOf(w.oms)).Ok?
             && (forall row :: row in rows && row.Row? ==> Settleable(w, row.orderNumber))
    ensures var w := Reached(instrumentId, events).world;
            var after := Recover(w, Some(rows));
            && after.result.Ok?
            && SameOrders(w, after.world)
            && (forall row :: row in rows ==> row.Row? && HoldsLastRow(w, after.world, rows, row.orderNumber))
            && Recover(after.world, Some(rows)).world == after.world
  {
    var w := Reached(instrumentId, events).world;
    RecoveryAgreesWithBroker(w, rows);
    RecoveringAgainChangesNothing(w, rows);
  }

  // ----- an order acknowledged twice -----

  lemma ReachedOneMore(instrumentId: string, events: seq<Event>, next: Event)
    ensures Reached(instrumentId, events + [next]) == Step(Reached(instrumentId, events), next)
  {
    StartHoldsInvariant(instrumentId);
    assert (events + [next])[..|events + [next]| - 1] == events;
  }

  /** The order state machine's answer to an event that only concerns orders. */
  function AfterOrderEvent(oms: Oms, event: Event): Result<Oms, Error>
    requires event.Intent? || event.RegisterCommand? || event.Ack?
  {
    match event
    case Intent(client, quantity) => AfterIntent(oms, client, quantity)
    case RegisterCommand(command) => AfterRegister(oms, command)
    case Ack(ack) => AfterAck(oms, ack)
  }

  lemma OrderEventReaches(instrumentId: string, events: seq<Event>, next: Event, oms: Oms, after: Oms)
    requires next.Intent? || next.RegisterCommand? || next.Ack?
    requires Reached(instrumentId, events).world == World(oms, {}, Flat(instrumentId))
    requires AfterOrderEvent(oms, next) == Ok(after)
    ensures Reached(instrumentId, events + [next]).world == World(after, {}, Flat(instrumentId))
  {
    ReachedOneMore(instrumentId, events, next);
  }

  /** Intent, registration and two acknowledgements under different broker ids. */
  function AcknowledgedTwice(command: BrokerOrderCommand, a: string, b: string): seq<Event> {
    [Intent(command.clientOrderId, command.quantity)] + [RegisterCommand(command)]
    + [Ack(OrderAckEvent(command.clientOrderId, true, a))] + [Ack(OrderAckEvent(command.clientOrderId, true, b))]
  }

  /** The one order of `command`, before its first acknowledgement. */
  function Submitted(command: BrokerOrderCommand, registered: Option<BrokerOrderCommand>): Oms {
    var client := command.clientOrderId;
    Oms(map[client := OrderState(client, SUBMITTED, "", command.quantity, 0, registered, None)], map[])
  }

  function AcknowledgedOnce(command: BrokerOrderCommand, a: string): Oms {
    var client := command.clientOrderId;
    Oms(map[client := OrderState(client, ACKED, a, command.quantity, 0, Some(command), None)], map[a := client])
  }

  lemma OrderIsAcknowledgedTwice(command: BrokerOrderCommand, a: string, b: string)
    requires command.clientOrderId != "" && command.quantity > 0 && a != "" && b != "" && a != b
    requires command.instrumentIdentity.Some? ==>
               command.instrumentIdentity.value.instrumentId == command.instrumentId
    ensures AfterIntent(EMPTY, command.clientOrderId, command.quantity) == Ok(Submitted(command, None))
    ensures AfterRegister(Submitted(command, None), command) == Ok(Submitted(command, Some(command)))
    ensures AfterAck(Submitted(command, Some(command)), OrderAckEvent(command.clientOrderId, true, a))
            == Ok(AcknowledgedOnce(command, a))
    ensures AfterAck(AcknowledgedOnce(command, a), OrderAckEvent(command.clientOrderId, true, b))
            == Ok(Reacknowledged(command, a, b))
  {
    var client := command.clientOrderId;
    var submitted := Submitted(command, None).states[client];
    var registered := submitted.(command := Some(command));
    var once := registered.(status := ACKED, brokerOrderId := a);
    assert map[client := submitted][client := registered] == map[client := registered];
    assert map[client := registered][client := once] == map[client := once];
    assert map[client := once][client := once.(brokerOrderId := b)] == map[client := once.(brokerOrderId := b)];
  }

  lemma FirstAckIsReached(command: BrokerOrderCommand, a: string)
    requires AfterIntent(EMPTY, command.clientOrderId, command.quantity) == Ok(Submitted(command, None))
    requires AfterRegister(Submitted(command, None), command) == Ok(Submitted(command, Some(command)))
    requires AfterAck(Submitted(command, Some(command)), OrderAckEvent(command.clientOrderId, true, a))
             == Ok(AcknowledgedOnce(command, a))
    ensures var events := [Intent(command.clientOrderId, command.quantity)] + [RegisterCommand(command)]
                          + [Ack(OrderAckEvent(command.clientOrderId, true, a))];
            Reached(command.instrumentId, events).world
            == World(AcknowledgedOnce(command, a), {}, Flat(command.instrumentId))
  {
    var instrument, client := command.instrumentId, command.clientOrderId;
    var intended := [Intent(client, command.quantity)];
    OrderEventReaches(instrument, [], intended[0], EMPTY, Submitted(command, None));
    assert [] + [intended[0]] == intended;
    OrderEventReaches(instrument, intended, RegisterCommand(command), Submitted(command, None),
                      Submitted(command, Some(command)));
    OrderEventReaches(instrument, intended + [RegisterCommand(command)], Ack(OrderAckEvent(client, true, a)),
                      Submitted(command, Some(command)), AcknowledgedOnce(command, a));
  }

  lemma SecondAckIsReached(command: BrokerOrderCommand, a: string, b: string)
    requires command.clientOrderId != "" && command.quantity > 0 && a != "" && b != "" && a != b
    requires command.instrumentIdentity.Some? ==>
               command.instrumentIdentity.value.instrumentId == command.instrumentId
    ensures Reached(command.instrumentId, AcknowledgedTwice(command, a, b)).world
            == World(Reacknowledged(command, a, b), {}, Flat(command.instrumentId))
  {
    OrderIsAcknowledgedTwice(command, a, b);
    FirstAckIsReached(command, a);
    var events := [Intent(command.clientOrderId, command.quantity)] + [RegisterCommand(command)]
                  + [Ack(OrderAckEvent(command.clientOrderId, true, a))];
    OrderEventReaches(command.instrumentId, events, Ack(OrderAckEvent(command.clientOrderId, true, b)),
                      AcknowledgedOnce(command, a), Reacknowledged(command, a, b));
  }

  /** Recovering a row under the first of the two ids is accepted by normalisation and refused at settlement. */
  lemma RowOfOldBrokerIdIsRefused(command: BrokerOrderCommand, a: string, b: string, average: real)
    requires command.clientOrderId != "" && command.quantity > 0 && a != "" && b != "" && a != b && average > 0.0
    requires command.instrumentIdentity.Some? ==>
               command.instrumentIdentity.value.instrumentId == command.instrumentId
    ensures var w := Reached(command.instrumentId, AcknowledgedTwice(command, a, b)).world;
            var rows := [Row(a, Some(command.quantity), Some(average))];
            && NormalizedReports(Some(rows), ContextsOf(w.oms)).Ok?
            && Recover(w, Some(rows)) == BatchOutcome(w, Err(BROKER_ORDER_ID_MISMATCH))
  {
    SecondAckIsReached(command, a, b);
    OldBrokerIdIsRefused(command, a, b, average);
  }
}
