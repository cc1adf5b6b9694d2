/** The canonical values passed between the order, execution and position components. */
module Contracts {

  datatype Option<+T> = None | Some(value: T)

  /** A Python call that returns (`Ok`) or raises (`Err`). */
  datatype Result<+T, +E> = Ok(value: T) | Err(error: E)

  /** Error codes raised by the live order and execution path. */
  datatype Error =
    | CLIENT_ORDER_ID_REQUIRED
    | ORDER_QUANTITY_INVALID
    | ORDER_INTENT_ALREADY_REGISTERED
    | ORDER_NOT_REGISTERED
    | BROKER_COMMAND_AFTER_INVALID_STATE
    | BROKER_COMMAND_QUANTITY_MISMATCH
    | BROKER_COMMAND_INSTRUMENT_ID_MISMATCH
    | ACK_AFTER_TERMINAL_STATE
    | BROKER_ORDER_ID_REQUIRED_FOR_ACCEPTED_ACK
    | BROKER_ORDER_ID_ALREADY_CORRELATED
    | BROKER_ORDER_ID_REQUIRED
    | BROKER_ORDER_ID_NOT_CORRELATED
    | CORRELATED_ORDER_STATE_MISSING
    | EXECUTION_CORRELATION_STATE_INVALID
    | BROKER_ORDER_COMMAND_NOT_REGISTERED
    | BROKER_ORDER_ID_MISMATCH
    | EXECUTION_BEFORE_ACK
    | UNSUPPORTED_EXECUTION_STATUS
    | FILLED_QUANTITY_INVALID
    | FILLED_QUANTITY_EXCEEDS_ORDER
    | REMAINING_QUANTITY_MISMATCH
    | EXECUTION_EVENT_ID_REQUIRED
    | CLIENT_ORDER_ID_MISMATCH
    | INSTRUMENT_ID_MISMATCH
    | SIDE_INVALID
    | QUANTITY_INVALID
    | PRICE_INVALID
    | EXECUTION_PRICE_REQUIRED
    | NOTICE_ORDER_NUMBER_REQUIRED
    | NOTICE_NOT_AN_EXECUTION
    | NOTICE_QUANTITY_INVALID
    | NOTICE_PRICE_INVALID
    | EXECUTION_QUANTITY_EXCEEDS_ORDER
    | PRIOR_FILLED_QUANTITY_INVALID
    | OUTPUT1_REQUIRED
    | OUTPUT1_ROW_INVALID
    | ODNO_REQUIRED
    | TOT_CCLD_QTY_INVALID
    | AVG_IDX_INVALID
    | CUMULATIVE_FILLED_QUANTITY_REGRESSION
    | PRIOR_AVERAGE_PRICE_REQUIRED_FOR_DELTA_PRICE
    | DELTA_EXECUTION_PRICE_INVALID
    | RISK_APPROVAL_TOKEN_REQUIRED
    | BROKER_SUBMIT_RAISED
    | BROKER_ORDER_RESPONSE_REQUIRED
    | BROKER_RESPONSE_CLIENT_ORDER_ID_MISMATCH

  /** A command side; anything but the two tradable sides is kept as text. */
  datatype Side = BUY | SELL | OtherSide(text: string)

  function Sign(side: Side): int {
    match side
    case BUY => 1
    case SELL => -1
    case OtherSide(_) => 0
  }

  predicate Tradable(side: Side) {
    side == BUY || side == SELL
  }

  /** Sides and kinds of the canonical signals and commands. */
  datatype OrderSide = BuySide | SellSide

  datatype AssetType = FUTURES | OPTION

  datatype OptionType = CALL | PUT

  datatype OrderCommand = OrderCommand(
    clientOrderId: string, trackId: string, assetType: AssetType, side: OrderSide, qty: int, price: real,
    optionType: Option<OptionType>, strike: real, symbol: string, expiry: string, tagId: string)

  datatype Status =
    | SUBMITTED
    | ACKED
    | REJECTED
    | PARTIALLY_FILLED
    | FILLED
    | OtherStatus(text: string)

  datatype OptionInstrumentIdentity = OptionInstrumentIdentity(
    instrumentId: string,
    symbol: string,
    expiry: Option<string>,
    optionType: Option<string>,
    strike: Option<real>)

  datatype BrokerOrderCommand = BrokerOrderCommand(
    clientOrderId: string,
    instrumentId: string,
    side: Side,
    quantity: int,
    orderType: string,
    brokerSymbol: Option<string>,
    sessionId: Option<string>,
    instrumentIdentity: Option<OptionInstrumentIdentity>,
    assetType: Option<string>,
    requestedPrice: Option<real>,
    strategyId: Option<string>,
    orderPurpose: Option<string>,
    trackId: Option<string>,
    tagId: Option<string>,
    groupId: Option<string>,
    legId: Option<string>)

  /** Identifiers are stripped tokens; the empty token stands for a missing or blank one. */
  datatype BrokerOrderResponse = BrokerOrderResponse(
    clientOrderId: string, accepted: bool, brokerOrderId: string)

  datatype OrderAckEvent = OrderAckEvent(
    clientOrderId: string, accepted: bool, brokerOrderId: string)

  /** The identity under which an execution is delivered exactly once. */
  datatype ExecutionId =
    | NoId
    | RestSnapshot(order: string, cumulative: int, average: real)
    | RealtimeFrame(frame: string)
    | OtherId(text: string)

  datatype ExecutionReport = ExecutionReport(
    clientOrderId: string,
    brokerOrderId: string,
    executionId: ExecutionId,
    status: Status,
    filledQuantity: int,
    remainingQuantity: int,
    executionPrice: Option<real>)

  /** The average price of `m` lots at `a` and `n` lots at `p`. */
  function WeightedAverage(a: real, m: int, p: real, n: int): real
    requires m + n != 0
  {
    (a * m as real + p * n as real) / (m + n) as real
  }

  lemma WeightedAverageConserves(a: real, m: int, p: real, n: int)
    requires m > 0 && n > 0
    ensures WeightedAverage(a, m, p, n) * (m + n) as real == a * m as real + p * n as real
    ensures a > 0.0 && p > 0.0 ==> WeightedAverage(a, m, p, n) > 0.0
  {
    if a > 0.0 && p > 0.0 {
      assert a * m as real > 0.0;
      assert p * n as real > 0.0;
    }
  }
}
