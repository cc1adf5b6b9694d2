/**
  The live settlement protocol as a whole: orders being routed and acknowledged, realtime notices,
  recoveries, and reports delivered late or more than once, in any order.
 */
module SettlementRuns {
  import opened Contracts
  import opened Ledger
  import opened OrderStates
  import opened LivePosition
  import opened Settlement
  import opened ExecutionReports
  import opened RecoveryService
  import opened OrderRouting

  datatype Event =
    | Intent(clientOrderId: string, quantity: int)
    | RegisterCommand(command: BrokerOrderCommand)
    | Ack(event: OrderAckEvent)
    | RouteOrder(routed: BrokerOrderCommand, approved: bool, reply: BrokerReply)
      // A notice is read, its report is built and settled.
    | ReceiveNotice(notice: ExecutionNotice)
      // A recovery normalises a response and settles its reports.
    | RecoverResponse(response: Option<seq<Row>>)
      // Reports are built now, to be delivered later, when they may have gone stale.
    | HoldNotice(held: ExecutionNotice)
    | HoldResponse(heldResponse: Option<seq<Row>>)
      // Any report built so far is delivered, possibly again; any other report is ignored.
    | Deliver(report: ExecutionReport)

  /**
    The stores, the reports built so far, the reports settled so far in order, and the profit that
    the position has realised by closing.
   */
  datatype Run = Run(world: World, built: set<ExecutionReport>, settled: seq<ExecutionReport>, realised: real)

  function Start(instrumentId: string): Run {
    Run(World(EMPTY, {}, Flat(instrumentId)), {}, [], 0.0)
  }

  /** The profit that settling a report realises; a report that is not admitted or not fillable realises none. */
  ghost function RealisedBy(w: World, report: ExecutionReport): real
    requires Sound(w)
  {
    if !Admitted(w, report) then 0.0
    else
      var command := CommandFor(w.oms, report.brokerOrderId).value;
      if Fillable(w.position, command, report)
      then Realised(w.position, command.side, report.filledQuantity, report.executionPrice.value)
      else 0.0
  }

  ghost function AfterDelivery(run: Run, report: ExecutionReport): Run
    requires Sound(run.world)
  {
    Run(Settle(run.world, report).world,
        run.built + {report},
        if Admitted(run.world, report) then run.settled + [report] else run.settled,
        run.realised + RealisedBy(run.world, report))
  }

  /** The reports of a batch, delivered until one raises. */
  ghost function AfterBatch(run: Run, reports: seq<ExecutionReport>): (r: Run)
    requires Sound(run.world)
    ensures r.world == SettleAll(run.world, reports).world
  {
    if reports == [] then run
    else
      var front, last := reports[..|reports| - 1], reports[|reports| - 1];
      if SettleAll(run.world, front).result.Err?
      then AfterBatch(run, front).(built := AfterBatch(run, front).built + {last})
      else AfterDelivery(AfterBatch(run, front), last)
  }

  ghost function WithOms(run: Run, after: Result<Oms, Error>): Run {
    match after
    case Ok(oms) => run.(world := run.world.(oms := oms))
    case Err(_) => run
  }

  ghost function Step(run: Run, event: Event): Run
    requires Sound(run.world)
  {
    var oms := run.world.oms;
    match event
    case Intent(client, quantity) => WithOms(run, AfterIntent(oms, client, quantity))
    case RegisterCommand(command) => WithOms(run, AfterRegister(oms, command))
    case Ack(ack) => WithOms(run, AfterAck(oms, ack))
    case RouteOrder(command, approved, reply) => WithOms(run, Ok(Route(oms, command, approved, reply).oms))
    case ReceiveNotice(notice) =>
      (match RealtimeReport(oms, notice)
       case Err(_) => run
       case Ok(report) => AfterDelivery(run, report))
    case RecoverResponse(response) =>
      (match NormalizedReports(response, ContextsOf(oms))
       case Err(_) => run
       case Ok(reports) => AfterBatch(run, reports))
    case HoldNotice(notice) =>
      (match RealtimeReport(oms, notice)
       case Err(_) => run
       case Ok(report) => run.(built := run.built + {report}))
    case HoldResponse(response) =>
      (match NormalizedReports(response, ContextsOf(oms))
       case Err(_) => run
       case Ok(reports) => run.(built := run.built + (set report | report in reports)))
    case Deliver(report) => if report in run.built then AfterDelivery(run, report) else run
  }

  /** All of `events`, in order. */
  ghost function Execute(run: Run, events: seq<Event>): (r: Run)
    requires Invariant(run)
    ensures Invariant(r)
    decreases |events|
  {
    if events == [] then run
    else
      var before := Execute(run, events[..|events| - 1]);
      StepKeepsInvariant(before, events[|events| - 1]);
      Step(before, events[|events| - 1])
  }

  // ----- the ledger -----

  /** What an order contributes to the position of an instrument: its signed fills, at its average price. */
  function Contribution(instrumentId: string, state: OrderState): Amount {
    if state.command.Some? && state.command.value.instrumentId == instrumentId
    then
      var signed := Sign(state.command.value.side) * state.filledQuantity;
      Amount(signed, Cost(state.averagePrice, signed))
    else ZERO
  }

  /** A fill's signed quantity and notional. */
  function FillAmount(side: Side, quantity: int, price: real): Amount {
    var signed := Sign(side) * quantity;
    Amount(signed, price * signed as real)
  }

  function Cost(average: Option<real>, quantity: int): real {
    if average.Some? then average.value * quantity as real else 0.0
  }

  function Contributions(instrumentId: string, oms: Oms): map<string, Amount> {
    map client | client in oms.states :: Contribution(instrumentId, oms.states[client])
  }

  /** The sum over all orders. */
  ghost function OrderTotal(instrumentId: string, oms: Oms): Amount {
    Total(Contributions(instrumentId, oms))
  }

  /** Quantity and notional of the settled reports of one order. */
  function SettledAmount(settled: seq<ExecutionReport>, client: string): Amount {
    if settled == [] then ZERO
    else
      var front, last := SettledAmount(settled[..|settled| - 1], client), settled[|settled| - 1];
      if last.clientOrderId == client
      then Plus(front, Amount(last.filledQuantity, Cost(last.executionPrice, last.filledQuantity)))
      else front
  }

  /** The order has fills that the instrument's position takes. */
  predicate Participates(instrumentId: string, state: OrderState) {
    && state.filledQuantity > 0
    && state.command.Some?
    && state.command.value.instrumentId == instrumentId
    && Tradable(state.command.value.side)
  }

  /** All fills of this instrument are on one side, so that nothing was ever closed out. */
  ghost predicate OneSided(w: World, side: Side) {
    forall client :: client in w.oms.states && Participates(w.position.instrumentId, w.oms.states[client]) ==>
      w.oms.states[client].command.value.side == side
  }

  // ----- the invariant of every run -----

  /** Quantities, costs, statuses and averages agree with the settled reports, order by order. */
  ghost predicate OrderSettled(settled: seq<ExecutionReport>, client: string, state: OrderState) {
    && (state.filledQuantity > 0 ==> state.averagePrice.Some?)
    && SettledAmount(settled, client) == Amount(state.filledQuantity, Cost(state.averagePrice, state.filledQuantity))
  }

  /** The position is the sum of the orders; its cost is their notional and what was realised by closing. */
  ghost predicate PositionMatches(w: World, realised: real) {
    var total := OrderTotal(w.position.instrumentId, w.oms);
    && Signed(w.position) == total.quantity
    && SignedCost(w.position) == total.notional + realised
    && (forall side :: OneSided(w, side) && Tradable(side) ==> realised == 0.0)
  }

  ghost predicate Invariant(run: Run) {
    && Sound(run.world)
    && StatusMatchesFills(run.world.oms)
    && SnapshotsBehind(run.world)
    && AllAdapterBuilt(run.world.oms, run.built)
    && OrdersSettled(run.settled, run.world.oms)
    && SettledOnce(run.settled, run.world.seen)
    && SnapshotsCounted(run.settled)
    && PositionMatches(run.world, run.realised)
  }

  /** No identity was settled twice, and every settled identity is remembered. */
  ghost predicate SettledOnce(settled: seq<ExecutionReport>, seen: set<ExecutionId>) {
    && (forall i :: 0 <= i < |settled| ==> settled[i].executionId in seen)
    && (forall i, j :: 0 <= i < j < |settled| ==> settled[i].executionId != settled[j].executionId)
  }

  /** Settling a snapshot took its order to exactly the snapshot's cumulative quantity; only the two sources settle. */
  ghost predicate SnapshotsCounted(settled: seq<ExecutionReport>) {
    forall i :: 0 <= i < |settled| ==> CountedAt(settled, i)
  }

  ghost predicate CountedAt(settled: seq<ExecutionReport>, i: nat)
    requires i < |settled|
  {
    && settled[i].filledQuantity > 0
    && (settled[i].executionId.RestSnapshot? || settled[i].executionId.RealtimeFrame?)
    && (settled[i].executionId.RestSnapshot? ==>
          SettledAmount(settled[..i + 1], settled[i].clientOrderId).quantity == settled[i].executionId.cumulative)
  }

  ghost predicate AllAdapterBuilt(oms: Oms, built: set<ExecutionReport>) {
    forall report :: report in built ==> AdapterBuilt(oms, report)
  }

  ghost predicate OrdersSettled(settled: seq<ExecutionReport>, oms: Oms) {
    && (forall client :: client in oms.states ==> OrderSettled(settled, client, oms.states[client]))
    && (forall report :: report in settled ==> report.clientOrderId in oms.states)
  }

  lemma StartHoldsInvariant(instrumentId: string)
    ensures Invariant(Start(instrumentId))
  {
    ConsistentStart();
    assert Contributions(instrumentId, EMPTY) == map[];
  }

  // ----- steps of the OMS alone -----

  lemma OmsStepKeepsInvariant(run: Run, oms: Oms)
    requires Invariant(run) && Keeps(run.world.oms, oms)
    ensures Invariant(WithOms(run, Ok(oms)))
  {
    BuiltReportsStay(run.world.oms, oms, run.built);
    forall client | client in oms.states
      ensures OrderSettled(run.settled, client, oms.states[client])
    {
      if client in run.world.oms.states {
        assert OrderSettled(run.settled, client, run.world.oms.states[client]);
        assert SameFills(run.world.oms.states[client], oms.states[client]);
      } else {
        NothingSettled(run.settled, client);
      }
    }
    OmsStepKeepsPosition(run.world, oms, run.realised);
    OmsStepKeepsSnapshotsBehind(run.world, oms);
  }

  lemma BuiltReportsStay(earlier: Oms, later: Oms, built: set<ExecutionReport>)
    requires AllAdapterBuilt(earlier, built) && Extends(earlier, later)
    ensures AllAdapterBuilt(later, built)
  {
    forall report | report in built
      ensures AdapterBuilt(later, report)
    {
      AdapterBuiltIsStable(earlier, later, report);
    }
  }

  lemma OmsStepKeepsSnapshotsBehind(w: World, oms: Oms)
    requires SnapshotsBehind(w) && Extends(w.oms, oms)
    ensures SnapshotsBehind(w.(oms := oms))
  {
    forall id | id in w.seen && id.RestSnapshot?
      ensures && id.order in oms.brokerToClient
              && oms.brokerToClient[id.order] in oms.states
              && id.cumulative <= oms.states[oms.brokerToClient[id.order]].filledQuantity
    {
      var client := w.oms.brokerToClient[id.order];
      assert OrderExtends(w.oms.states[client], oms.states[client]);
    }
  }

  lemma {:induction false} NothingSettled(settled: seq<ExecutionReport>, client: string)
    requires forall report :: report in settled ==> report.clientOrderId != client
    ensures SettledAmount(settled, client) == ZERO
  {
    if settled != [] {
      assert settled[|settled| - 1] in settled;
      NothingSettled(settled[..|settled| - 1], client);
    }
  }

  lemma OmsStepKeepsPosition(w: World, oms: Oms, realised: real)
    requires PositionMatches(w, realised) && Consistent(w.oms) && Consistent(oms) && FillsUnchanged(w.oms, oms)
    ensures PositionMatches(w.(oms := oms), realised)
  {
    var instrument := w.position.instrumentId;
    var before, after := Contributions(instrument, w.oms), Contributions(instrument, oms);
    forall client | client in after
      ensures after[client] == if client in before then before[client] else ZERO
    {
      if client in before {
        SameFillsSameContribution(instrument, w.oms, oms, client);
      } else {
        UnfilledContributesNothing(instrument, oms, client);
      }
    }
    TotalPadding(before, after);
    forall side | OneSided(w.(oms := oms), side)
      ensures OneSided(w, side)
    {
      forall client | client in w.oms.states && Participates(instrument, w.oms.states[client])
        ensures w.oms.states[client].command.value.side == side
      {
        assert SameFills(w.oms.states[client], oms.states[client]);
      }
    }
  }

  lemma UnfilledContributesNothing(instrumentId: string, oms: Oms, client: string)
    requires Consistent(oms) && client in oms.states && oms.states[client].filledQuantity == 0
    ensures Contribution(instrumentId, oms.states[client]) == ZERO
  {
    assert ConsistentOrder(oms, client, oms.states[client]);
  }

  lemma SameFillsSameContribution(instrumentId: string, before: Oms, after: Oms, client: string)
    requires Consistent(before) && Consistent(after) && client in before.states && client in after.states
    requires SameFills(before.states[client], after.states[client])
    ensures Contribution(instrumentId, after.states[client]) == Contribution(instrumentId, before.states[client])
  {
    if before.states[client].filledQuantity == 0 {
      UnfilledContributesNothing(instrumentId, before, client);
      UnfilledContributesNothing(instrumentId, after, client);
    }
  }

  // ----- delivering a report -----

  lemma DeliveryKeepsInvariant(run: Run, report: ExecutionReport)
    requires Invariant(run) && AdapterBuilt(run.world.oms, report)
    ensures Invariant(AfterDelivery(run, report))
    ensures Extends(run.world.oms, AfterDelivery(run, report).world.oms)
  {
    SettleAllOrNothing(run.world, report);
    if Admitted(run.world, report) {
      AdmissionKeepsPosition(run, report);
      AdmissionKeepsInvariant(run, report, AfterDelivery(run, report));
    }
  }

  lemma AdmissionKeepsPosition(run: Run, report: ExecutionReport)
    requires Invariant(run) && AdapterBuilt(run.world.oms, report) && Admitted(run.world, report)
    ensures PositionMatches(AfterDelivery(run, report).world, AfterDelivery(run, report).realised)
  {
    assert OrderSettled(run.settled, report.clientOrderId, run.world.oms.states[report.clientOrderId]);
    DeliveryKeepsPosition(run.world, report, run.realised);
  }

  lemma AdmissionKeepsInvariant(run: Run, report: ExecutionReport, after: Run)
    requires Invariant(run) && AdapterBuilt(run.world.oms, report) && report.executionId !in run.world.seen
    requires Sound(after.world) && PositionMatches(after.world, after.realised)
    requires AfterExecution(run.world.oms, report) == Ok(after.world.oms)
    requires after.world.seen == run.world.seen + {report.executionId}
    requires after.built == run.built + {report} && after.settled == run.settled + [report]
    ensures Invariant(after)
    ensures Extends(run.world.oms, after.world.oms)
  {
    AdmissionKeepsOrders(run, report, after);
    AdmissionKeepsSettled(run, report, after);
  }

  lemma AdmissionKeepsOrders(run: Run, report: ExecutionReport, after: Run)
    requires Sound(run.world) && StatusMatchesFills(run.world.oms) && SnapshotsBehind(run.world)
    requires AllAdapterBuilt(run.world.oms, run.built) && AdapterBuilt(run.world.oms, report)
    requires AfterExecution(run.world.oms, report) == Ok(after.world.oms)
    requires after.world.seen == run.world.seen + {report.executionId} && after.built == run.built + {report}
    ensures Extends(run.world.oms, after.world.oms) && StatusMatchesFills(after.world.oms)
    ensures AllAdapterBuilt(after.world.oms, after.built) && SnapshotsBehind(after.world)
  {
    var w := run.world;
    ExecutionKeeps(w.oms, report);
    ExecutionKeepsStatus(w.oms, report);
    BuiltReportsStay(w.oms, after.world.oms, after.built);
    DeliveryKeepsSnapshotsBehind(w, report, after.world);
  }

  lemma AdmissionKeepsSettled(run: Run, report: ExecutionReport, after: Run)
    requires Sound(run.world) && AdapterBuilt(run.world.oms, report) && report.executionId !in run.world.seen
    requires OrdersSettled(run.settled, run.world.oms) && SettledOnce(run.settled, run.world.seen)
    requires SnapshotsCounted(run.settled)
    requires AfterExecution(run.world.oms, report) == Ok(after.world.oms)
    requires after.world.seen == run.world.seen + {report.executionId} && after.settled == run.settled + [report]
    ensures OrdersSettled(after.settled, after.world.oms) && SettledOnce(after.settled, after.world.seen)
    ensures SnapshotsCounted(after.settled)
  {
    DeliveryKeepsOrdersSettled(run.settled, run.world.oms, after.world.oms, report);
    AdmissionSettlesOnce(run.settled, run.world.seen, report);
    AdmissionCountsSnapshot(run.settled, run.world.oms, after.world.oms, report);
  }

  lemma AdmissionCountsSnapshot(settled: seq<ExecutionReport>, oms: Oms, after: Oms, report: ExecutionReport)
    requires SnapshotsCounted(settled) && AdapterBuilt(oms, report)
    requires AfterExecution(oms, report) == Ok(after) && OrdersSettled(settled + [report], after)
    ensures SnapshotsCounted(settled + [report])
  {
    var all := settled + [report];
    assert OrderSettled(all, report.clientOrderId, after.states[report.clientOrderId]);
    assert all[..|settled| + 1] == all;
    forall i | 0 <= i < |all|
      ensures CountedAt(all, i)
    {
      if i < |settled| {
        assert CountedAt(settled, i);
        assert all[..i + 1] == settled[..i + 1];
      }
    }
  }

  lemma AdmissionSettlesOnce(settled: seq<ExecutionReport>, seen: set<ExecutionId>, report: ExecutionReport)
    requires SettledOnce(settled, seen) && report.executionId !in seen
    ensures SettledOnce(settled + [report], seen + {report.executionId})
  {
  }

  lemma DeliveryKeepsOrdersSettled(settled: seq<ExecutionReport>, oms: Oms, after: Oms, report: ExecutionReport)
    requires Consistent(oms) && AdapterBuilt(oms, report)
    requires AfterExecution(oms, report) == Ok(after)
    requires OrdersSettled(settled, oms)
    ensures OrdersSettled(settled + [report], after)
  {
    forall client | client in after.states
      ensures OrderSettled(settled + [report], client, after.states[client])
    {
      DeliveryKeepsOrderSettled(settled, oms, after, report, client);
    }
  }

  lemma DeliveryKeepsSnapshotsBehind(w: World, report: ExecutionReport, after: World)
    requires SnapshotsBehind(w) && AdapterBuilt(w.oms, report)
    requires AfterExecution(w.oms, report) == Ok(after.oms)
    requires after.seen == w.seen + {report.executionId}
    ensures SnapshotsBehind(after)
  {
  }

  /** The averages that the OMS integrates conserve the notional of what was settled. */
  lemma DeliveryKeepsOrderSettled(
    settled: seq<ExecutionReport>, oms: Oms, after: Oms, report: ExecutionReport, client: string)
    requires Consistent(oms) && AdapterBuilt(oms, report)
    requires AfterExecution(oms, report) == Ok(after)
    requires client in oms.states && OrderSettled(settled, client, oms.states[client])
    ensures OrderSettled(settled + [report], client, after.states[client])
  {
    assert (settled + [report])[..|settled|] == settled;
    if client == report.clientOrderId {
      var before := oms.states[client];
      assert ConsistentOrder(oms, client, before);
      if before.filledQuantity > 0 {
        WeightedAverageConserves(before.averagePrice.value, before.filledQuantity,
                                 report.executionPrice.value, report.filledQuantity);
      }
    }
  }

  /** The average after an execution carries the earlier notional and the report's. */
  lemma AverageConserves(before: OrderState, report: ExecutionReport, sign: int)
    requires report.filledQuantity > 0 && report.executionPrice.Some? && report.executionPrice.value > 0.0
    requires before.filledQuantity > 0 <==> before.averagePrice.Some?
    requires sign == 1 || sign == -1
    ensures Cost(AveragePriceAfter(before, report), sign * (before.filledQuantity + report.filledQuantity))
            == Cost(before.averagePrice, sign * before.filledQuantity)
               + report.executionPrice.value * (sign * report.filledQuantity) as real
  {
    if before.filledQuantity > 0 {
      CostOfAdding(sign, before.averagePrice.value, before.filledQuantity,
                   report.executionPrice.value, report.filledQuantity);
    }
  }

  /** An admitted fill moves its order's contribution and the position by the same amount, or neither. */
  lemma DeliveryKeepsPosition(w: World, report: ExecutionReport, realised: real)
    requires Sound(w) && PositionMatches(w, realised) && Admitted(w, report) && AdapterBuilt(w.oms, report)
    requires w.oms.states[report.clientOrderId].filledQuantity > 0 ==>
               w.oms.states[report.clientOrderId].averagePrice.Some?
    ensures PositionMatches(Settle(w, report).world, realised + RealisedBy(w, report))
  {
    AdmittedReportFills(w, report);
    var after := Settle(w, report).world;
    if Fillable(w.position, w.oms.states[report.clientOrderId].command.value, report) {
      FillableDeliveryKeepsPosition(w, report, after, realised);
    } else {
      UnfillableDeliveryKeepsPosition(w, report, after, realised);
    }
  }

  /** An admitted report fills its order and the position, or its order alone if its command is not fillable. */
  lemma AdmittedReportFills(w: World, report: ExecutionReport)
    requires Sound(w) && Admitted(w, report) && AdapterBuilt(w.oms, report)
    requires w.oms.states[report.clientOrderId].filledQuantity > 0 ==>
               w.oms.states[report.clientOrderId].averagePrice.Some?
    ensures var state, after := w.oms.states[report.clientOrderId], Settle(w, report).world;
            && state.command.Some? && CommandFor(w.oms, report.brokerOrderId) == Ok(state.command.value)
            && AfterExecution(w.oms, report) == Ok(after.oms)
            && report.executionPrice.Some? && report.executionPrice.value > 0.0
            && if Fillable(w.position, state.command.value, report)
               then Filled(w, report, after)
               else after.position == w.position
  {
    SettleAllOrNothing(w, report);
    AdmittedCommandIsOwn(w, report);
    assert ConsistentOrder(w.oms, report.clientOrderId, w.oms.states[report.clientOrderId]);
  }

  /** If one order's contribution moves, the total moves by as much. */
  lemma OrderTotalMoves(instrument: string, before: Oms, after: Oms, client: string, moved: Amount)
    requires client in before.states && client in after.states
    requires after.states == before.states[client := after.states[client]]
    requires Contribution(instrument, after.states[client])
             == Plus(Contribution(instrument, before.states[client]), moved)
    ensures OrderTotal(instrument, after) == Plus(OrderTotal(instrument, before), moved)
  {
    var table := Contributions(instrument, before);
    var contribution := Contribution(instrument, after.states[client]);
    assert Contributions(instrument, after) == table[client := contribution];
    TotalUpdate(table, client, contribution);
    PlusCancels(Total(table), Total(Contributions(instrument, after)), table[client], moved);
  }

  /** `after` is `w` with the report's fill in its order and in the position. */
  ghost predicate Filled(w: World, report: ExecutionReport, after: World)
    requires Sound(w)
  {
    && report.clientOrderId in w.oms.states
    && AfterExecution(w.oms, report) == Ok(after.oms)
    && var state := w.oms.states[report.clientOrderId];
       && state.command.Some? && Fillable(w.position, state.command.value, report)
       && (state.filledQuantity > 0 <==> state.averagePrice.Some?)
       && AfterFill(w.position, state.command.value.side, report.filledQuantity, report.executionPrice.value)
          == Ok(after.position)
  }

  lemma FillableDeliveryKeepsPosition(w: World, report: ExecutionReport, after: World, realised: real)
    requires Sound(w) && PositionMatches(w, realised) && Filled(w, report, after)
    ensures var side := w.oms.states[report.clientOrderId].command.value.side;
            PositionMatches(
              after, realised + Realised(w.position, side, report.filledQuantity, report.executionPrice.value))
  {
    var side, price := w.oms.states[report.clientOrderId].command.value.side, report.executionPrice.value;
    var moved := FillAmount(side, report.filledQuantity, price);
    var gained := Realised(w.position, side, report.filledQuantity, price);
    FillMovesBoth(w.position, side, report.filledQuantity, price);
    FilledContributionMoves(w, report, after);
    OrderTotalMoves(w.position.instrumentId, w.oms, after.oms, report.clientOrderId, moved);
    forall only | OneSided(after, only)
      ensures OneSided(w, only) && gained == 0.0
    {
      OneSidedBefore(w, report, after, only);
      FilledOrderIsOnTheSide(w, report, after, only);
      NothingOpposed(w, side);
    }
    FillKeepsMatch(w, after, moved, gained, realised);
  }

  /** A fill's amount, and the profit it realises, account for what the position gains in quantity and in cost. */
  lemma FillMovesBoth(position: Position, side: Side, quantity: int, price: real)
    requires Valid(position) && AfterFill(position, side, quantity, price).Ok?
    ensures var after := AfterFill(position, side, quantity, price).value;
            && after.instrumentId == position.instrumentId
            && Signed(after) == Signed(position) + FillAmount(side, quantity, price).quantity
            && SignedCost(after) == SignedCost(position) + FillAmount(side, quantity, price).notional
                                    + Realised(position, side, quantity, price)
  {
    FillMovesPosition(position, side, quantity, price);
    FillConservesCost(position, side, quantity, price);
  }

  lemma FilledContributionMoves(w: World, report: ExecutionReport, after: World)
    requires Sound(w) && Filled(w, report, after)
    ensures var client := report.clientOrderId;
            && client in after.oms.states
            && after.oms.states == w.oms.states[client := after.oms.states[client]]
            && Contribution(w.position.instrumentId, after.oms.states[client])
               == Plus(Contribution(w.position.instrumentId, w.oms.states[client]),
                       FillAmount(w.oms.states[client].command.value.side, report.filledQuantity,
                                  report.executionPrice.value))
  {
    var client := report.clientOrderId;
    ContributionMoves(w.oms.states[client], after.oms.states[client], report, w.position.instrumentId);
  }

  /** If the orders move by an amount, and the position by it and by a realised profit, they still match. */
  lemma FillKeepsMatch(w: World, after: World, moved: Amount, gained: real, realised: real)
    requires PositionMatches(w, realised) && after.position.instrumentId == w.position.instrumentId
    requires Signed(after.position) == Signed(w.position) + moved.quantity
    requires SignedCost(after.position) == SignedCost(w.position) + moved.notional + gained
    requires OrderTotal(w.position.instrumentId, after.oms) == Plus(OrderTotal(w.position.instrumentId, w.oms), moved)
    requires forall side :: OneSided(after, side) ==> OneSided(w, side) && gained == 0.0
    ensures PositionMatches(after, realised + gained)
  {
  }

  /** If the contribution of the one order that changes is nothing before and after, the total stays. */
  lemma NothingMoves(instrument: string, before: Oms, after: Oms, client: string)
    requires client in before.states && client in after.states
    requires after.states == before.states[client := after.states[client]]
    requires Contribution(instrument, before.states[client]) == ZERO
    requires Contribution(instrument, after.states[client]) == ZERO
    ensures OrderTotal(instrument, after) == OrderTotal(instrument, before)
  {
    OrderTotalMoves(instrument, before, after, client, ZERO);
  }

  /** If neither the total nor the position moves, they still match. */
  lemma SameTotalKeepsMatch(w: World, after: World, realised: real)
    requires PositionMatches(w, realised) && after.position == w.position
    requires OrderTotal(w.position.instrumentId, after.oms) == OrderTotal(w.position.instrumentId, w.oms)
    requires forall side :: OneSided(after, side) ==> OneSided(w, side)
    ensures PositionMatches(after, realised)
  {
  }

  lemma FilledOrderIsOnTheSide(w: World, report: ExecutionReport, after: World, side: Side)
    requires Sound(w) && Filled(w, report, after) && OneSided(after, side)
    requires after.position.instrumentId == w.position.instrumentId
    ensures w.oms.states[report.clientOrderId].command.value.side == side
  {
    ExecutionKeeps(w.oms, report);
    assert Participates(w.position.instrumentId, after.oms.states[report.clientOrderId]);
  }

  /** An order whose command the fill adapter refuses contributes nothing, before or after. */
  lemma UnfillableDeliveryKeepsPosition(w: World, report: ExecutionReport, after: World, realised: real)
    requires Sound(w) && PositionMatches(w, realised)
    requires report.clientOrderId in w.oms.states && report.executionPrice.Some? && report.executionPrice.value > 0.0
    requires var state := w.oms.states[report.clientOrderId];
             state.command.Some? && !Fillable(w.position, state.command.value, report)
    requires AfterExecution(w.oms, report) == Ok(after.oms) && after.position == w.position
    ensures PositionMatches(after, realised)
  {
    UnfillableContributesNothing(w, report, after);
    forall side | OneSided(after, side)
      ensures OneSided(w, side)
    {
      OneSidedBefore(w, report, after, side);
    }
    NothingMoves(w.position.instrumentId, w.oms, after.oms, report.clientOrderId);
    SameTotalKeepsMatch(w, after, realised);
  }

  lemma UnfillableContributesNothing(w: World, report: ExecutionReport, after: World)
    requires report.clientOrderId in w.oms.states && AfterExecution(w.oms, report) == Ok(after.oms)
    requires var state := w.oms.states[report.clientOrderId];
             && state.command.Some?
             && !(state.command.value.instrumentId == w.position.instrumentId && Tradable(state.command.value.side))
    ensures var client, instrument := report.clientOrderId, w.position.instrumentId;
            && client in after.oms.states
            && after.oms.states == w.oms.states[client := after.oms.states[client]]
            && Contribution(instrument, w.oms.states[client]) == ZERO
            && Contribution(instrument, after.oms.states[client]) == ZERO
  {
  }

  lemma ContributionMoves(before: OrderState, after: OrderState, report: ExecutionReport, instrument: string)
    requires before.command.Some? && before.command.value.instrumentId == instrument
    requires Tradable(before.command.value.side)
    requires report.filledQuantity > 0 && report.executionPrice.Some? && report.executionPrice.value > 0.0
    requires before.filledQuantity > 0 <==> before.averagePrice.Some?
    requires after.command == before.command
    requires after.filledQuantity == before.filledQuantity + report.filledQuantity
    requires after.averagePrice == AveragePriceAfter(before, report)
    ensures Contribution(instrument, after)
            == Plus(Contribution(instrument, before),
                    FillAmount(before.command.value.side, report.filledQuantity, report.executionPrice.value))
  {
    AverageConserves(before, report, Sign(before.command.value.side));
  }

  lemma OneSidedBefore(w: World, report: ExecutionReport, after: World, side: Side)
    requires Sound(w) && after.position.instrumentId == w.position.instrumentId
    requires AfterExecution(w.oms, report) == Ok(after.oms)
    requires OneSided(after, side)
    ensures OneSided(w, side)
  {
    var instrument := w.position.instrumentId;
    ExecutionKeeps(w.oms, report);
    forall client | client in w.oms.states && Participates(instrument, w.oms.states[client])
      ensures w.oms.states[client].command.value.side == side
    {
      assert OrderExtends(w.oms.states[client], after.oms.states[client]);
      assert Participates(instrument, after.oms.states[client]);
    }
  }

  /** On one side there is nothing to close. */
  lemma NothingOpposed(w: World, side: Side)
    requires Sound(w) && OneSided(w, side) && Tradable(side)
    requires Signed(w.position) == OrderTotal(w.position.instrumentId, w.oms).quantity
    ensures w.position.qty == 0 || w.position.side == Some(side)
  {
    var table := Contributions(w.position.instrumentId, w.oms);
    forall client | client in table
      ensures if side == BUY then table[client].quantity >= 0 else table[client].quantity <= 0
    {
      OneSidedContribution(w, side, client);
    }
    TotalOnOneSide(table, side == BUY);
  }

  lemma OneSidedContribution(w: World, side: Side, client: string)
    requires OneSided(w, side) && Tradable(side) && client in w.oms.states
    ensures var quantity := Contribution(w.position.instrumentId, w.oms.states[client]).quantity;
            if side == BUY then quantity >= 0 else quantity <= 0
  {
    var state := w.oms.states[client];
    if Participates(w.position.instrumentId, state) {
      assert state.command.value.side == side;
    }
  }

  // ----- every step -----

  lemma {:induction false} BatchKeepsInvariant(run: Run, reports: seq<ExecutionReport>)
    requires Invariant(run)
    requires forall report :: report in reports ==> AdapterBuilt(run.world.oms, report)
    ensures Invariant(AfterBatch(run, reports))
    ensures Extends(run.world.oms, AfterBatch(run, reports).world.oms)
  {
    if reports != [] {
      var front, last := reports[..|reports| - 1], reports[|reports| - 1];
      BatchKeepsInvariant(run, front);
      var before := AfterBatch(run, front);
      AdapterBuiltIsStable(run.world.oms, before.world.oms, last);
      NextInBatchKeepsInvariant(before, last);
      var after := AfterDelivery(before, last);
      ExtendsTransitive(run.world.oms, before.world.oms, after.world.oms);
      assert AfterBatch(run, reports) == after || AfterBatch(run, reports) == before.(built := before.built + {last});
    }
  }

  lemma NextInBatchKeepsInvariant(run: Run, report: ExecutionReport)
    requires Invariant(run) && AdapterBuilt(run.world.oms, report)
    ensures Invariant(AfterDelivery(run, report)) && Invariant(run.(built := run.built + {report}))
    ensures Extends(run.world.oms, AfterDelivery(run, report).world.oms)
  {
    DeliveryKeepsInvariant(run, report);
  }

  lemma StepKeepsInvariant(run: Run, event: Event)
    requires Invariant(run)
    ensures Invariant(Step(run, event))
    ensures Extends(run.world.oms, Step(run, event).world.oms)
  {
    if event.Intent? || event.RegisterCommand? || event.Ack? || event.RouteOrder? {
      OrderEventKeepsInvariant(run, event);
    } else if event.HoldNotice? || event.HoldResponse? {
      HeldReportKeepsInvariant(run, event);
    } else {
      ReportEventKeepsInvariant(run, event);
    }
  }

  lemma HeldReportKeepsInvariant(run: Run, event: Event)
    requires Invariant(run) && (event.HoldNotice? || event.HoldResponse?)
    ensures Invariant(Step(run, event))
    ensures Extends(run.world.oms, Step(run, event).world.oms)
  {
    match event
    case HoldNotice(notice) => HeldNoticeKeepsInvariant(run, notice);
    case HoldResponse(response) => HeldResponseKeepsInvariant(run, response);
  }

  lemma HeldNoticeKeepsInvariant(run: Run, notice: ExecutionNotice)
    requires Invariant(run)
    ensures Invariant(Step(run, HoldNotice(notice)))
    ensures Step(run, HoldNotice(notice)).world == run.world
  {
    var report := RealtimeReport(run.world.oms, notice);
    if report.Ok? {
      RealtimeReportsAreAdapterBuilt(run.world.oms, notice);
      MoreBuiltKeepsInvariant(run, {report.value});
    }
  }

  lemma HeldResponseKeepsInvariant(run: Run, response: Option<seq<Row>>)
    requires Invariant(run)
    ensures Invariant(Step(run, HoldResponse(response)))
    ensures Step(run, HoldResponse(response)).world == run.world
  {
    var reports := NormalizedReports(response, ContextsOf(run.world.oms));
    if reports.Ok? {
      BatchIsAdapterBuilt(run.world.oms, response);
      MoreBuiltKeepsInvariant(run, set report | report in reports.value);
    }
  }

  lemma MoreBuiltKeepsInvariant(run: Run, more: set<ExecutionReport>)
    requires Invariant(run) && AllAdapterBuilt(run.world.oms, more)
    ensures Invariant(run.(built := run.built + more))
  {
  }

  lemma OrderEventKeepsInvariant(run: Run, event: Event)
    requires Invariant(run)
    requires event.Intent? || event.RegisterCommand? || event.Ack? || event.RouteOrder?
    ensures Invariant(Step(run, event))
    ensures Extends(run.world.oms, Step(run, event).world.oms)
  {
    var oms := run.world.oms;
    match event
    case Intent(client, quantity) =>
      if AfterIntent(oms, client, quantity).Ok? {
        IntentKeeps(oms, client, quantity);
        OmsStepKeepsInvariant(run, AfterIntent(oms, client, quantity).value);
      }
    case RegisterCommand(command) =>
      if AfterRegister(oms, command).Ok? {
        RegisterKeeps(oms, command);
        OmsStepKeepsInvariant(run, AfterRegister(oms, command).value);
      }
    case Ack(ack) =>
      if AfterAck(oms, ack).Ok? {
        AckKeeps(oms, ack);
        OmsStepKeepsInvariant(run, AfterAck(oms, ack).value);
      }
    case RouteOrder(command, approved, reply) =>
      RouteKeeps(oms, command, approved, reply);
      OmsStepKeepsInvariant(run, Route(oms, command, approved, reply).oms);
  }

  lemma ReportEventKeepsInvariant(run: Run, event: Event)
    requires Invariant(run)
    requires event.ReceiveNotice? || event.RecoverResponse? || event.Deliver?
    ensures Invariant(Step(run, event))
    ensures Extends(run.world.oms, Step(run, event).world.oms)
  {
    match event
    case ReceiveNotice(notice) => NoticeKeepsInvariant(run, notice);
    case RecoverResponse(response) => ResponseKeepsInvariant(run, response);
    case Deliver(report) =>
      if report in run.built {
        DeliveryKeepsInvariant(run, report);
      }
  }

  lemma NoticeKeepsInvariant(run: Run, notice: ExecutionNotice)
    requires Invariant(run)
    ensures Invariant(Step(run, ReceiveNotice(notice)))
    ensures Extends(run.world.oms, Step(run, ReceiveNotice(notice)).world.oms)
  {
    var report := RealtimeReport(run.world.oms, notice);
    if report.Ok? {
      RealtimeReportsAreAdapterBuilt(run.world.oms, notice);
      DeliveryKeepsInvariant(run, report.value);
    }
  }

  lemma ResponseKeepsInvariant(run: Run, response: Option<seq<Row>>)
    requires Invariant(run)
    ensures Invariant(Step(run, RecoverResponse(response)))
    ensures Extends(run.world.oms, Step(run, RecoverResponse(response)).world.oms)
  {
    var reports := NormalizedReports(response, ContextsOf(run.world.oms));
    if reports.Ok? {
      BatchIsAdapterBuilt(run.world.oms, response);
      BatchKeepsInvariant(run, reports.value);
    }
  }

  lemma BatchIsAdapterBuilt(oms: Oms, response: Option<seq<Row>>)
    requires Consistent(oms) && NormalizedReports(response, ContextsOf(oms)).Ok?
    ensures forall report :: report in NormalizedReports(response, ContextsOf(oms)).value ==> AdapterBuilt(oms, report)
  {
    NormalizedShadowsOms(oms, response.value);
    var shadow := Normalized(response.value, ContextsOf(oms)).value;
    forall report | report in shadow.reports
      ensures AdapterBuilt(oms, report)
    {
      assert ReportOfBatch(oms, shadow, report);
    }
  }
}
