/**
  The two report producers. Realtime notices carry increments; the REST inquiry carries
  cumulative quantities with average prices, which the recovery adapter differentiates.
 */
module ExecutionReports {
  import opened Contracts
  import opened OrderStates

  // ----- realtime notices -----

  /** A parsed H0IFCNI0 notice. `None` stands for a field that is not a number. */
  datatype ExecutionNotice = ExecutionNotice(
    rawFrame: string,
    orderNumber: string,
    isExecution: bool,
    quantity: Option<int>,
    price: Option<real>)

  datatype ExecutionContext = ExecutionContext(
    clientOrderId: string,
    orderQuantity: int,
    priorFilledQuantity: int)

  function FillStatus(cumulative: int, orderQuantity: int): Status {
    if cumulative == orderQuantity then FILLED else PARTIALLY_FILLED
  }

  function NoticeReport(notice: ExecutionNotice, context: ExecutionContext): Result<ExecutionReport, Error> {
    if context.clientOrderId == "" then Err(CLIENT_ORDER_ID_REQUIRED)
    else if context.orderQuantity <= 0 then Err(ORDER_QUANTITY_INVALID)
    else if context.priorFilledQuantity < 0 then Err(PRIOR_FILLED_QUANTITY_INVALID)
    else if !notice.isExecution then Err(NOTICE_NOT_AN_EXECUTION)
    else if notice.quantity.None? || notice.quantity.value <= 0 then Err(NOTICE_QUANTITY_INVALID)
    else
      var cumulative := context.priorFilledQuantity + notice.quantity.value;
      if cumulative > context.orderQuantity then Err(EXECUTION_QUANTITY_EXCEEDS_ORDER)
      else if notice.orderNumber == "" then Err(NOTICE_ORDER_NUMBER_REQUIRED)
      else if notice.price.None? || notice.price.value <= 0.0 then Err(NOTICE_PRICE_INVALID)
      else Ok(ExecutionReport(
        context.clientOrderId,
        notice.orderNumber,
        RealtimeFrame(notice.rawFrame),
        FillStatus(cumulative, context.orderQuantity),
        notice.quantity.value,
        context.orderQuantity - cumulative,
        notice.price))
  }

  /** What the realtime consumer builds from a notice and the OMS-owned correlation. */
  function RealtimeReport(oms: Oms, notice: ExecutionNotice): Result<ExecutionReport, Error> {
    if notice.orderNumber == "" then Err(NOTICE_ORDER_NUMBER_REQUIRED)
    else
      match ResolveCorrelation(oms, notice.orderNumber)
      case Err(error) => Err(error)
      case Ok(correlation) =>
        NoticeReport(notice, ExecutionContext(
          correlation.clientOrderId, correlation.orderQuantity, correlation.priorFilledQuantity))
  }

  // ----- REST recovery -----

  /** One `output1` row; `None` stands for a field that is not a number. */
  datatype Row =
    | NotAMapping
    | Row(orderNumber: string, cumulative: Option<int>, average: Option<real>)

  datatype RecoveryContext = RecoveryContext(
    clientOrderId: string,
    orderQuantity: int,
    priorFilledQuantity: int,
    priorAveragePrice: Option<real>)

  function ValidContext(context: RecoveryContext): Result<RecoveryContext, Error> {
    if context.clientOrderId == "" then Err(CLIENT_ORDER_ID_REQUIRED)
    else if context.orderQuantity <= 0 then Err(ORDER_QUANTITY_INVALID)
    else if context.priorFilledQuantity < 0 then Err(PRIOR_FILLED_QUANTITY_INVALID)
    else Ok(context)
  }

  /** The context that recovery obtains for a broker order number from the OMS. */
  function ContextForOrder(oms: Oms, orderNumber: string): Result<RecoveryContext, Error> {
    match ResolveCorrelation(oms, orderNumber)
    case Err(error) => Err(error)
    case Ok(correlation) => ValidContext(RecoveryContext(
      correlation.clientOrderId, correlation.orderQuantity,
      correlation.priorFilledQuantity, correlation.priorAveragePrice))
  }

  function DeltaExecutionPrice(cumulative: int, cumulativeAverage: real, prior: int, priorAverage: Option<real>)
    : Result<real, Error>
    requires cumulative > prior
  {
    if prior == 0 then Ok(cumulativeAverage)
    else if priorAverage.None? then Err(PRIOR_AVERAGE_PRICE_REQUIRED_FOR_DELTA_PRICE)
    else
      var price := (cumulativeAverage * cumulative as real - priorAverage.value * prior as real)
                   / (cumulative - prior) as real;
      if price <= 0.0 then Err(DELTA_EXECUTION_PRICE_INVALID) else Ok(price)
  }

  /** A row's report against a context; no report if the order did not advance. */
  function RowReport(row: Row, context: RecoveryContext): (r: Result<Option<ExecutionReport>, Error>)
    requires row.Row?
    ensures r.Ok? && r.value.Some? ==> r.value.value.brokerOrderId == row.orderNumber
  {
    if row.orderNumber == "" then Err(ODNO_REQUIRED)
    else if row.cumulative.None? || row.cumulative.value < 0 then Err(TOT_CCLD_QTY_INVALID)
    else
      var cumulative := row.cumulative.value;
      if cumulative < context.priorFilledQuantity then Err(CUMULATIVE_FILLED_QUANTITY_REGRESSION)
      else if cumulative > context.orderQuantity then Err(EXECUTION_QUANTITY_EXCEEDS_ORDER)
      else if cumulative == context.priorFilledQuantity then Ok(None)
      else if row.average.None? || row.average.value <= 0.0 then Err(AVG_IDX_INVALID)
      else
        match DeltaExecutionPrice(cumulative, row.average.value, context.priorFilledQuantity, context.priorAveragePrice)
        case Err(error) => Err(error)
        case Ok(price) => Ok(Some(ExecutionReport(
          context.clientOrderId,
          row.orderNumber,
          RestSnapshot(row.orderNumber, cumulative, row.average.value),
          FillStatus(cumulative, context.orderQuantity),
          cumulative - context.priorFilledQuantity,
          context.orderQuantity - cumulative,
          Some(price))))
  }

  /** The adapter's private shadow of the OMS while it walks the rows. */
  datatype Shadow = Shadow(
    reports: seq<ExecutionReport>,
    contexts: map<string, RecoveryContext>,
    cumulative: map<string, int>,
    average: map<string, Option<real>>)

  const NO_ROWS := Shadow([], map[], map[], map[])

  ghost predicate ShadowKeys(shadow: Shadow) {
    shadow.contexts.Keys == shadow.cumulative.Keys == shadow.average.Keys
  }

  type ContextSource = string -> Result<RecoveryContext, Error>

  /** The callback that recovery hands to the adapter. */
  function ContextsOf(oms: Oms): ContextSource {
    order => ContextForOrder(oms, order)
  }

  function AfterRow(shadow: Shadow, row: Row, contextForOrder: ContextSource): (r: Result<Shadow, Error>)
    requires ShadowKeys(shadow)
    ensures r.Ok? ==> ShadowKeys(r.value)
  {
    if row.NotAMapping? then Err(OUTPUT1_ROW_INVALID)
    else if row.orderNumber == "" then Err(ODNO_REQUIRED)
    else
      match OpenOrder(shadow, row.orderNumber, contextForOrder)
      case Err(error) => Err(error)
      case Ok(begun) => AfterKnownRow(begun, row)
  }

  /** The first row of an order fetches its context and starts its shadow there. */
  function OpenOrder(shadow: Shadow, order: string, contextForOrder: ContextSource): (r: Result<Shadow, Error>)
    requires ShadowKeys(shadow)
    ensures r.Ok? ==> ShadowKeys(r.value) && order in r.value.contexts
  {
    if order in shadow.contexts then Ok(shadow)
    else
      match contextForOrder(order)
      case Err(error) => Err(error)
      case Ok(context) => Ok(shadow.(
        contexts := shadow.contexts[order := context],
        cumulative := shadow.cumulative[order := context.priorFilledQuantity],
        average := shadow.average[order := context.priorAveragePrice]))
  }

  function AfterKnownRow(shadow: Shadow, row: Row): (r: Result<Shadow, Error>)
    requires ShadowKeys(shadow) && row.Row? && row.orderNumber in shadow.contexts
    ensures r.Ok? ==> ShadowKeys(r.value)
  {
    match ValidContext(CurrentContext(shadow, row.orderNumber))
    case Err(error) => Err(error)
    case Ok(context) =>
      match RowReport(row, context)
      case Err(error) => Err(error)
      case Ok(None) => Ok(shadow)
      case Ok(Some(report)) => Ok(Advanced(shadow, report, row.average))
  }

  /** The context against which the next row of a known order is read. */
  function CurrentContext(shadow: Shadow, order: string): RecoveryContext
    requires ShadowKeys(shadow) && order in shadow.contexts
  {
    var base := shadow.contexts[order];
    RecoveryContext(base.clientOrderId, base.orderQuantity, shadow.cumulative[order], shadow.average[order])
  }

  /** The shadow after an order advanced by `report`. */
  function Advanced(shadow: Shadow, report: ExecutionReport, average: Option<real>): Shadow
    requires ShadowKeys(shadow) && report.brokerOrderId in shadow.contexts
  {
    var order := report.brokerOrderId;
    Shadow(
      shadow.reports + [report],
      shadow.contexts,
      shadow.cumulative[order := shadow.cumulative[order] + report.filledQuantity],
      shadow.average[order := average])
  }

  /** The shadow after all of `rows`, or the error of the first row that is refused. */
  function Normalized(rows: seq<Row>, contextForOrder: ContextSource): (r: Result<Shadow, Error>)
    ensures r.Ok? ==> ShadowKeys(r.value)
  {
    if rows == [] then Ok(NO_ROWS)
    else
      match Normalized(rows[..|rows| - 1], contextForOrder)
      case Err(error) => Err(error)
      case Ok(shadow) => AfterRow(shadow, rows[|rows| - 1], contextForOrder)
  }

  /** The reports of a whole response; `None` stands for an `output1` that is not a list. */
  function NormalizedReports(response: Option<seq<Row>>, contextForOrder: ContextSource)
    : Result<seq<ExecutionReport>, Error>
  {
    if response.None? then Err(OUTPUT1_REQUIRED)
    else
      match Normalized(response.value, contextForOrder)
      case Err(error) => Err(error)
      case Ok(shadow) => Ok(shadow.reports)
  }

  lemma {:induction false} RefusalIsFinal(rows: seq<Row>, k: nat, contextForOrder: ContextSource)
    requires k <= |rows|
    requires Normalized(rows[..k], contextForOrder).Err?
    ensures Normalized(rows, contextForOrder) == Normalized(rows[..k], contextForOrder)
    decreases |rows|
  {
    if k == |rows| {
      assert rows[..k] == rows;
    } else {
      assert rows[..|rows| - 1][..k] == rows[..k];
      RefusalIsFinal(rows[..|rows| - 1], k, contextForOrder);
    }
  }

  lemma NextRow(rows: seq<Row>, i: nat, contextForOrder: ContextSource)
    requires i < |rows| && Normalized(rows[..i], contextForOrder).Ok?
    ensures var after := AfterRow(Normalized(rows[..i], contextForOrder).value, rows[i], contextForOrder);
            && Normalized(rows[..i + 1], contextForOrder) == after
            && (after.Err? ==> Normalized(rows, contextForOrder) == after)
  {
    assert rows[..i + 1][..i] == rows[..i];
    if Normalized(rows[..i + 1], contextForOrder).Err? {
      RefusalIsFinal(rows, i + 1, contextForOrder);
    }
  }

  lemma KnownRowAdvances(shadow: Shadow, row: Row, report: ExecutionReport)
    requires ShadowKeys(shadow) && row.Row? && row.orderNumber in shadow.contexts
    requires ValidContext(CurrentContext(shadow, row.orderNumber)).Ok?
    requires RowReport(row, CurrentContext(shadow, row.orderNumber)) == Ok(Some(report))
    ensures AfterKnownRow(shadow, row) == Ok(Advanced(shadow, report, row.average))
  {
  }

  class KISFuturesExecutionRecoveryAdapter {

    constructor () {
    }

    method Normalize(response: Option<seq<Row>>, contextForOrder: ContextSource)
      returns (r: Result<seq<ExecutionReport>, Error>)
      ensures r == NormalizedReports(response, contextForOrder)
    {
      if response.None? { return Err(OUTPUT1_REQUIRED); }
      var rows := response.value;
      var shadow := NO_ROWS;
      for i := 0 to |rows|
        invariant Normalized(rows[..i], contextForOrder) == Ok(shadow)
      {
        NextRow(rows, i, contextForOrder);
        var next := ReadRow(shadow, rows[i], contextForOrder);
        if next.Err? { return Err(next.error); }
        shadow := next.value;
      }
      assert rows[..|rows|] == rows;
      return Ok(shadow.reports);
    }

    /** One turn of the loop: the list and the three dictionaries are updated for one row. */
    method ReadRow(shadow: Shadow, row: Row, contextForOrder: ContextSource) returns (r: Result<Shadow, Error>)
      requires ShadowKeys(shadow)
      ensures r == AfterRow(shadow, row, contextForOrder)
    {
      var Shadow(reports, contextByOrder, cumulativeByOrder, averageByOrder) := shadow;
      if row.NotAMapping? { return Err(OUTPUT1_ROW_INVALID); }
      var order := row.orderNumber;
      if order == "" { return Err(ODNO_REQUIRED); }
      if order !in contextByOrder {
        var context := contextForOrder(order);
        if context.Err? { return Err(context.error); }
        contextByOrder := contextByOrder[order := context.value];
        cumulativeByOrder := cumulativeByOrder[order := context.value.priorFilledQuantity];
        averageByOrder := averageByOrder[order := context.value.priorAveragePrice];
      }
      ghost var begun := Shadow(reports, contextByOrder, cumulativeByOrder, averageByOrder);
      assert OpenOrder(shadow, order, contextForOrder) == Ok(begun);
      var base := contextByOrder[order];
      var current := ValidContext(RecoveryContext(
        base.clientOrderId, base.orderQuantity, cumulativeByOrder[order], averageByOrder[order]));
      if current.Err? { return Err(current.error); }
      var built := RowReport(row, current.value);
      if built.Err? { return Err(built.error); }
      if built.value.Some? {
        var report := built.value.value;
        KnownRowAdvances(begun, row, report);
        reports := reports + [report];
        cumulativeByOrder := cumulativeByOrder[order := cumulativeByOrder[order] + report.filledQuantity];
        averageByOrder := averageByOrder[order := row.average];
      }
      return Ok(Shadow(reports, contextByOrder, cumulativeByOrder, averageByOrder));
    }
  }

  // ----- what the adapters guarantee -----

  /** The order that a broker id leads to, if it is one that can still be filled. */
  function OpenOrderOf(oms: Oms, brokerOrderId: string): Option<OrderState> {
    if brokerOrderId == "" || brokerOrderId !in oms.brokerToClient then None
    else if oms.brokerToClient[brokerOrderId] !in oms.states then None
    else
      var state := oms.states[oms.brokerToClient[brokerOrderId]];
      if state.status.ACKED? || state.status.PARTIALLY_FILLED? then Some(state) else None
  }

  /** A notice of some quantity at a price, of an open order that has room for it. */
  predicate NoticeFits(oms: Oms, notice: ExecutionNotice) {
    && notice.isExecution && notice.quantity.Some? && notice.price.Some?
    && notice.quantity.value > 0 && notice.price.value > 0.0
    && var state := OpenOrderOf(oms, notice.orderNumber);
       state.Some? && state.value.filledQuantity + notice.quantity.value <= state.value.orderQuantity
  }

  /** The report of a notice: its own quantity and price, on top of what the order has filled. */
  predicate ReportsNotice(state: OrderState, notice: ExecutionNotice, report: ExecutionReport) {
    && report.clientOrderId == state.clientOrderId && report.brokerOrderId == notice.orderNumber
    && report.executionId == RealtimeFrame(notice.rawFrame)
    && Some(report.filledQuantity) == notice.quantity && report.executionPrice == notice.price
    && report.remainingQuantity == state.orderQuantity - state.filledQuantity - report.filledQuantity
    && report.status == (if report.remainingQuantity == 0 then FILLED else PARTIALLY_FILLED)
  }

  /** What the realtime adapter accepts, from the OMS and the notice alone, and what it makes of it. */
  lemma NoticeIsAcceptedExactly(oms: Oms, notice: ExecutionNotice)
    requires Consistent(oms)
    ensures RealtimeReport(oms, notice).Ok? <==> NoticeFits(oms, notice)
    ensures NoticeFits(oms, notice) ==>
              ReportsNotice(OpenOrderOf(oms, notice.orderNumber).value, notice, RealtimeReport(oms, notice).value)
  {
    if OpenOrderOf(oms, notice.orderNumber).Some? {
      var client := oms.brokerToClient[notice.orderNumber];
      assert ConsistentOrder(oms, client, oms.states[client]);
    }
  }

  /**
    A report as either adapter builds it: against some fill count of an order that the OMS
    correlates with the report's broker id. Nothing here depends on how far the order has
    filled meanwhile, so it stays true while the report is under way.
   */
  ghost predicate AdapterBuilt(oms: Oms, report: ExecutionReport) {
    && report.brokerOrderId in oms.brokerToClient
    && oms.brokerToClient[report.brokerOrderId] == report.clientOrderId
    && report.clientOrderId in oms.states
    && report.filledQuantity > 0
    && report.remainingQuantity >= 0
    && report.remainingQuantity + report.filledQuantity <= oms.states[report.clientOrderId].orderQuantity
    && report.status == (if report.remainingQuantity == 0 then FILLED else PARTIALLY_FILLED)
    && report.executionPrice.Some? && report.executionPrice.value > 0.0
    && (match report.executionId
        case RestSnapshot(order, cumulative, _) =>
          && order == report.brokerOrderId
          && cumulative == oms.states[report.clientOrderId].orderQuantity - report.remainingQuantity
        case RealtimeFrame(_) => true
        case _ => false)
  }

  /** Increment source: the report is built against exactly the OMS's fill count. */
  lemma RealtimeReportsAreAdapterBuilt(oms: Oms, notice: ExecutionNotice)
    requires Consistent(oms)
    requires RealtimeReport(oms, notice).Ok?
    ensures var report := RealtimeReport(oms, notice).value;
            && AdapterBuilt(oms, report)
            && report.remainingQuantity + report.filledQuantity
               == oms.states[report.clientOrderId].orderQuantity - oms.states[report.clientOrderId].filledQuantity
  {
    var client := oms.brokerToClient[notice.orderNumber];
    assert ConsistentOrder(oms, client, oms.states[client]);
  }

  /** The shadow of an order starts at the OMS's fill count and only grows, up to the ordered quantity. */
  ghost predicate ShadowsOrder(oms: Oms, shadow: Shadow, order: string)
    requires ShadowKeys(shadow) && order in shadow.contexts
  {
    && ContextForOrder(oms, order) == Ok(shadow.contexts[order])
    && shadow.contexts[order].priorFilledQuantity <= shadow.cumulative[order] <= shadow.contexts[order].orderQuantity
  }

  /** A report of the batch: beyond the OMS's fill count, and not beyond the shadow's. */
  ghost predicate ReportOfBatch(oms: Oms, shadow: Shadow, report: ExecutionReport)
    requires ShadowKeys(shadow)
  {
    && AdapterBuilt(oms, report)
    && report.brokerOrderId in shadow.contexts
    && report.executionId.RestSnapshot?
    && shadow.contexts[report.brokerOrderId].priorFilledQuantity < report.executionId.cumulative
       <= shadow.cumulative[report.brokerOrderId]
  }

  ghost predicate ShadowsOms(oms: Oms, shadow: Shadow) {
    && ShadowKeys(shadow)
    && (forall order :: order in shadow.contexts ==> ShadowsOrder(oms, shadow, order))
    && (forall report :: report in shadow.reports ==> ReportOfBatch(oms, shadow, report))
  }

  lemma RowReportIsAdapterBuilt(oms: Oms, row: Row, context: RecoveryContext)
    requires Consistent(oms) && row.Row?
    requires ContextForOrder(oms, row.orderNumber).Ok?
    requires var base := ContextForOrder(oms, row.orderNumber).value;
             && context.clientOrderId == base.clientOrderId && context.orderQuantity == base.orderQuantity
             && base.priorFilledQuantity <= context.priorFilledQuantity
    requires RowReport(row, context).Ok? && RowReport(row, context).value.Some?
    ensures var report := RowReport(row, context).value.value;
            && AdapterBuilt(oms, report)
            && report.brokerOrderId == row.orderNumber
            && report.executionId == RestSnapshot(row.orderNumber, row.cumulative.value, row.average.value)
            && report.filledQuantity == row.cumulative.value - context.priorFilledQuantity
  {
    var client := oms.brokerToClient[row.orderNumber];
    assert ConsistentOrder(oms, client, oms.states[client]);
  }

  lemma ContextIsOwn(oms: Oms, order: string)
    requires Consistent(oms) && ContextForOrder(oms, order).Ok?
    ensures var context := ContextForOrder(oms, order).value;
            && order in oms.brokerToClient && context.clientOrderId == oms.brokerToClient[order]
            && context.clientOrderId in oms.states
            && var state := oms.states[context.clientOrderId];
               && (state.status.ACKED? || state.status.PARTIALLY_FILLED?)
               && context.orderQuantity == state.orderQuantity
               && context.priorFilledQuantity == state.filledQuantity <= state.orderQuantity
               && context.priorAveragePrice == state.averagePrice
  {
    var client := oms.brokerToClient[order];
    assert ConsistentOrder(oms, client, oms.states[client]);
  }

  lemma {:induction false} NormalizedShadowsOms(oms: Oms, rows: seq<Row>)
    requires Consistent(oms)
    requires Normalized(rows, ContextsOf(oms)).Ok?
    ensures ShadowsOms(oms, Normalized(rows, ContextsOf(oms)).value)
  {
    var source := ContextsOf(oms);
    if rows != [] {
      var row := rows[|rows| - 1];
      NormalizedShadowsOms(oms, rows[..|rows| - 1]);
      var before := Normalized(rows[..|rows| - 1], source).value;
      var begun := OpenOrder(before, row.orderNumber, source).value;
      BeginningShadowsOms(oms, before, row.orderNumber);
      KnownRowShadowsOms(oms, begun, row);
    }
  }

  lemma BeginningShadowsOms(oms: Oms, shadow: Shadow, order: string)
    requires Consistent(oms) && ShadowsOms(oms, shadow)
    requires OpenOrder(shadow, order, ContextsOf(oms)).Ok?
    ensures ShadowsOms(oms, OpenOrder(shadow, order, ContextsOf(oms)).value)
  {
    var begun := OpenOrder(shadow, order, ContextsOf(oms)).value;
    if order !in shadow.contexts {
      ContextIsOwn(oms, order);
      forall other | other in begun.contexts
        ensures ShadowsOrder(oms, begun, other)
      {
        assert other == order || ShadowsOrder(oms, shadow, other);
      }
      forall report | report in begun.reports
        ensures ReportOfBatch(oms, begun, report)
      {
        assert ReportOfBatch(oms, shadow, report);
      }
    }
  }

  lemma KnownRowShadowsOms(oms: Oms, shadow: Shadow, row: Row)
    requires Consistent(oms) && ShadowsOms(oms, shadow)
    requires row.Row? && row.orderNumber in shadow.contexts
    requires AfterKnownRow(shadow, row).Ok?
    ensures ShadowsOms(oms, AfterKnownRow(shadow, row).value)
  {
    var context := CurrentContext(shadow, row.orderNumber);
    assert ShadowsOrder(oms, shadow, row.orderNumber);
    if RowReport(row, context).value.Some? {
      var report := RowReport(row, context).value.value;
      RowReportIsAdapterBuilt(oms, row, context);
      KnownRowAdvances(shadow, row, report);
      AdvancedShadowsOms(oms, shadow, report, row.average);
    }
  }

  lemma AdvancedShadowsOms(oms: Oms, shadow: Shadow, report: ExecutionReport, average: Option<real>)
    requires ShadowsOms(oms, shadow)
    requires AdapterBuilt(oms, report) && report.executionId.RestSnapshot?
    requires report.brokerOrderId in shadow.contexts
    requires report.executionId.cumulative == shadow.cumulative[report.brokerOrderId] + report.filledQuantity
             <= shadow.contexts[report.brokerOrderId].orderQuantity
    ensures ShadowsOms(oms, Advanced(shadow, report, average))
  {
    var after := Advanced(shadow, report, average);
    assert ShadowsOrder(oms, shadow, report.brokerOrderId);
    forall order | order in after.contexts
      ensures ShadowsOrder(oms, after, order)
    {
      assert ShadowsOrder(oms, shadow, order);
    }
    forall other | other in after.reports
      ensures ReportOfBatch(oms, after, other)
    {
      assert other == report || ReportOfBatch(oms, shadow, other);
    }
  }

  /** An adapter-built report stays one while orders go on being routed and filled. */
  lemma AdapterBuiltIsStable(earlier: Oms, later: Oms, report: ExecutionReport)
    requires AdapterBuilt(earlier, report) && Extends(earlier, later)
    ensures AdapterBuilt(later, report)
  {
    assert OrderExtends(earlier.states[report.clientOrderId], later.states[report.clientOrderId]);
  }

  /** Differentiating a cumulative average and integrating it again gives the average back. */
  lemma DeltaPriceInverts(cumulative: int, average: real, prior: int, priorAverage: real)
    requires 0 < prior < cumulative
    requires DeltaExecutionPrice(cumulative, average, prior, Some(priorAverage)).Ok?
    ensures WeightedAverage(priorAverage, prior,
                            DeltaExecutionPrice(cumulative, average, prior, Some(priorAverage)).value,
                            cumulative - prior) == average
  {
    var price := DeltaExecutionPrice(cumulative, average, prior, Some(priorAverage)).value;
    var delta := (cumulative - prior) as real;
    assert price * delta == average * cumulative as real - priorAverage * prior as real;
    assert priorAverage * prior as real + price * delta == average * cumulative as real;
    assert prior + (cumulative - prior) == cumulative;
  }
}
