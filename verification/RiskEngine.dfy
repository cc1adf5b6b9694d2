/** Pre-trade risk: what an order may do to the position and the margin before it is routed. */
module RiskEngines {
  import opened Contracts

  /** Thresholds; the configuration's constructor rejects any that are not `ValidConfig`. */
  datatype RiskConfig = RiskConfig(
    maxOrderQty: int,
    maxDailyLoss: real,
    maxMarginRatio: real,
    maxPosition: int)

  predicate ValidConfig(config: RiskConfig) {
    config.maxOrderQty > 0 && config.maxPosition > 0 && config.maxDailyLoss > 0.0 && 0.0 < config.maxMarginRatio <= 1.0
  }

  datatype RiskCommand = RiskCommand(
    clientOrderId: string,
    trackId: string,
    instrumentKey: string,
    side: Side,
    qty: int,
    price: real,
    tagId: string)

  datatype RiskAccount = RiskAccount(
    totalBalance: real, realizedPnl: real, usedMargin: real, freeMargin: real)

  datatype RiskPosition = RiskPosition(side: Side, qty: int)

  datatype SensorSnapshot = SensorSnapshot(isMarginDietRequired: bool, reason: string)

  datatype ExpectedPosition = ExpectedPosition(instrumentKey: string, side: Option<Side>, qty: int)

  datatype Rejection =
    | REJECTED_BY_KILL_SWITCH
    | INVALID_ORDER_QTY
    | EXCEEDED_MAX_ORDER_QTY
    | EXCEEDED_MAX_DAILY_LOSS
    | EXCEEDED_INSTRUMENT_LIMIT
    | INSUFFICIENT_FREE_MARGIN
    | EXCEEDED_MAX_MARGIN_RATIO
    | MARGIN_DIET_ACTIVE

  datatype Decision = ALLOW | REDUCE | DENY

  datatype Evaluation = Evaluation(
    isApproved: bool,
    decision: Decision,
    originalQty: int,
    approvedQty: int,
    rejection: Option<Rejection>,
    requiredMargin: real,
    estimatedRatio: real,
    signature: Option<string>,
    reducedCommand: Option<RiskCommand>)

  /** The margin engine is a function of the command. */
  type MarginCalculator = RiskCommand -> real

  type Positions = Option<map<string, RiskPosition>>

  function Denied(command: RiskCommand, reason: Rejection): Evaluation {
    Evaluation(false, DENY, command.qty, 0, Some(reason), 0.0, 0.0, None, None)
  }

  /** The position under the command's own key, or else the only position there is. */
  function CurrentPosition(key: string, positions: Positions): Option<RiskPosition> {
    if positions.None? then None
    else if key in positions.value then Some(positions.value[key])
    else if |positions.value| == 1 then Some(SoleValue(positions.value))
    else None
  }

  function SoleValue(positions: map<string, RiskPosition>): (r: RiskPosition)
    requires |positions| == 1
    ensures r in positions.Values
  {
    SoleKeyIsUnique(positions);
    var key :| key in positions;
    positions[key]
  }

  lemma SoleKeyIsUnique(positions: map<string, RiskPosition>)
    requires |positions| == 1
    ensures exists key :: key in positions
    ensures forall a, b :: a in positions && b in positions ==> a == b
  {
    var key :| key in positions;
    var rest := positions.Keys - {key};
    assert |rest| == 0;
    forall other | other in positions
      ensures other == key
    {
      assert other == key || other in rest;
    }
  }

  function CurrentQty(key: string, positions: Positions): int {
    match CurrentPosition(key, positions)
    case Some(current) => current.qty
    case None => 0
  }

  /** Side and size after the order; no side stands for "FLAT". */
  function CalculateExpectedPosition(command: RiskCommand, positions: Positions): ExpectedPosition {
    var key, current := command.instrumentKey, CurrentPosition(command.instrumentKey, positions);
    if current.None? || current.value.qty == 0 || current.value.side == OtherSide("") then
      ExpectedPosition(key, Some(command.side), command.qty)
    else
      var RiskPosition(side, qty) := current.value;
      if side == command.side then ExpectedPosition(key, Some(side), qty + command.qty)
      else if command.qty < qty then ExpectedPosition(key, Some(side), qty - command.qty)
      else if command.qty == qty then ExpectedPosition(key, None, 0)
      else ExpectedPosition(key, Some(command.side), command.qty - qty)
  }

  /** The quantity that the instrument limit leaves of an order, if any. */
  function CapacityLimited(config: RiskConfig, command: RiskCommand, positions: Positions, allowReduction: bool)
    : Option<int>
  {
    var capacity := config.maxPosition - CurrentQty(command.instrumentKey, positions);
    if CalculateExpectedPosition(command, positions).qty <= config.maxPosition then Some(command.qty)
    else if allowReduction && 0 < capacity < command.qty then Some(capacity)
    else None
  }

  /** Python's `int`: towards zero. */
  function Truncated(x: real): int {
    if x >= 0.0 then x.Floor else -((-x).Floor)
  }

  function MarginRatio(account: RiskAccount, requiredMargin: real): real {
    if account.totalBalance > 0.0 then (account.usedMargin + requiredMargin) / account.totalBalance else 1.0
  }

  /** The last checks on a command whose quantity is settled. */
  function FinalChecks(
    config: RiskConfig, margin: MarginCalculator, command: RiskCommand, originalQty: int,
    account: RiskAccount, sensor: Option<SensorSnapshot>): Evaluation
  {
    var required := margin(command);
    var ratio := MarginRatio(account, required);
    if ratio > config.maxMarginRatio then
      Evaluation(false, DENY, originalQty, 0, Some(EXCEEDED_MAX_MARGIN_RATIO), required, ratio, None, None)
    else if sensor.Some? && sensor.value.isMarginDietRequired && command.tagId != "RISK_HEDGE" then
      Evaluation(false, DENY, originalQty, 0, Some(MARGIN_DIET_ACTIVE), required, ratio, None, None)
    else
      var reduced := command.qty < originalQty;
      Evaluation(
        true, if reduced then REDUCE else ALLOW, originalQty, command.qty, None, required, ratio,
        Some("SIG-RISK-APPROVED-" + command.trackId + "-" + command.clientOrderId),
        if reduced then Some(command) else None)
  }

  /** The margin check on a command that fits the instrument limit, possibly reducing it again. */
  function MarginChecks(
    config: RiskConfig, margin: MarginCalculator, command: RiskCommand, originalQty: int,
    account: RiskAccount, sensor: Option<SensorSnapshot>, allowReduction: bool): Evaluation
  {
    var required := margin(command);
    if required <= account.freeMargin then FinalChecks(config, margin, command, originalQty, account, sensor)
    else
      var affordable := Affordable(required, command.qty, account.freeMargin);
      if allowReduction && 0 < affordable < command.qty then
        FinalChecks(config, margin, command.(qty := affordable), originalQty, account, sensor)
      else
        Evaluation(false, DENY, originalQty, 0, Some(INSUFFICIENT_FREE_MARGIN), required,
                   MarginRatio(account, required), None, None)
  }

  /** How many units the free margin pays for, at the price of `required` for `qty` units. */
  function Affordable(required: real, qty: int, freeMargin: real): int {
    var unit := if qty > 0 then required / qty as real else 0.0;
    if unit > 0.0 then Truncated(freeMargin / unit) else 0
  }

  function AbsLoss(realizedPnl: real): real {
    if realizedPnl < 0.0 then -realizedPnl else 0.0
  }

  function Evaluate(
    config: RiskConfig, margin: MarginCalculator, killed: bool, dailyLoss: real,
    command: RiskCommand, account: RiskAccount, positions: Positions,
    sensor: Option<SensorSnapshot>, allowReduction: bool): Evaluation
  {
    if killed then Denied(command, REJECTED_BY_KILL_SWITCH)
    else if command.qty <= 0 then Denied(command, INVALID_ORDER_QTY)
    else if command.qty > config.maxOrderQty then Denied(command, EXCEEDED_MAX_ORDER_QTY)
    else if dailyLoss + AbsLoss(account.realizedPnl) >= config.maxDailyLoss then
      Denied(command, EXCEEDED_MAX_DAILY_LOSS)
    else
      match CapacityLimited(config, command, positions, allowReduction)
      case None => Denied(command, EXCEEDED_INSTRUMENT_LIMIT)
      case Some(qty) => MarginChecks(config, margin, command.(qty := qty), command.qty, account, sensor, allowReduction)
  }

  datatype ProjectionError =
    | BROKER_ORDER_COMMAND_REQUIRED
    | RISK_EFFECTIVE_COMMAND_REQUIRED
    | PROJECTED_CLIENT_ORDER_ID_MISMATCH
    | PROJECTED_QUANTITY_REQUIRED
    | RISK_QUANTITY_INCREASE_FORBIDDEN

  function ProjectRiskEffectiveQuantity(original: Option<BrokerOrderCommand>, effective: Option<RiskCommand>)
    : Result<BrokerOrderCommand, ProjectionError>
  {
    if original.None? then Err(BROKER_ORDER_COMMAND_REQUIRED)
    else if effective.None? then Err(RISK_EFFECTIVE_COMMAND_REQUIRED)
    else if original.value.clientOrderId != effective.value.clientOrderId then Err(PROJECTED_CLIENT_ORDER_ID_MISMATCH)
    else if original.value.quantity <= 0 || effective.value.qty <= 0 then Err(PROJECTED_QUANTITY_REQUIRED)
    else if effective.value.qty > original.value.quantity then Err(RISK_QUANTITY_INCREASE_FORBIDDEN)
    else Ok(original.value.(quantity := effective.value.qty))
  }

  class RiskEngine {
    const config: RiskConfig
    const margin: MarginCalculator
    var isKillSwitchActive: bool
    var dailyRealizedLoss: real

    constructor (config: RiskConfig, margin: MarginCalculator)
      requires ValidConfig(config)
      ensures this.config == config && this.margin == margin && !isKillSwitchActive && dailyRealizedLoss == 0.0
    {
      this.config, this.margin := config, margin;
      isKillSwitchActive, dailyRealizedLoss := false, 0.0;
    }

    method TriggerKillSwitch()
      modifies this
      ensures isKillSwitchActive && dailyRealizedLoss == old(dailyRealizedLoss)
    {
      isKillSwitchActive := true;
    }

    method ResetKillSwitch()
      modifies this
      ensures !isKillSwitchActive && dailyRealizedLoss == old(dailyRealizedLoss)
    {
      isKillSwitchActive := false;
    }

    /** Only losses are recorded; the recorded loss never falls. */
    method RecordRealizedLoss(amount: real)
      modifies this
      ensures isKillSwitchActive == old(isKillSwitchActive)
      ensures dailyRealizedLoss == old(dailyRealizedLoss) - if amount < 0.0 then amount else 0.0
      ensures dailyRealizedLoss >= old(dailyRealizedLoss)
    {
      if amount < 0.0 {
        dailyRealizedLoss := dailyRealizedLoss - amount;
      }
    }

    method EvaluateOrder(command: RiskCommand, account: RiskAccount, positions: Positions,
                         sensor: Option<SensorSnapshot>, allowReduction: bool)
      returns (r: Evaluation)
      ensures r == Evaluate(config, margin, isKillSwitchActive, dailyRealizedLoss,
                            command, account, positions, sensor, allowReduction)
    {
      var originalQty := command.qty;
      if isKillSwitchActive { return Denied(command, REJECTED_BY_KILL_SWITCH); }
      if command.qty <= 0 { return Denied(command, INVALID_ORDER_QTY); }
      if command.qty > config.maxOrderQty { return Denied(command, EXCEEDED_MAX_ORDER_QTY); }
      var totalLoss := dailyRealizedLoss + AbsLoss(account.realizedPnl);
      if totalLoss >= config.maxDailyLoss { return Denied(command, EXCEEDED_MAX_DAILY_LOSS); }
      var effective := command;
      var expected := CalculateExpectedPosition(effective, positions);
      if expected.qty > config.maxPosition {
        var remaining := config.maxPosition - CurrentQty(expected.instrumentKey, positions);
        if allowReduction && 0 < remaining < effective.qty {
          effective := effective.(qty := remaining);
        } else {
          return Denied(command, EXCEEDED_INSTRUMENT_LIMIT);
        }
      }
      assert CapacityLimited(config, command, positions, allowReduction) == Some(effective.qty);
      assert effective == command.(qty := effective.qty);
      ghost var limited := effective;
      var required := margin(effective);
      var ratio := MarginRatio(account, required);
      if required > account.freeMargin {
        var affordable := Affordable(required, effective.qty, account.freeMargin);
        if allowReduction && 0 < affordable < effective.qty {
          effective := effective.(qty := affordable);
          required := margin(effective);
          ratio := MarginRatio(account, required);
        } else {
          return Evaluation(false, DENY, originalQty, 0, Some(INSUFFICIENT_FREE_MARGIN), required, ratio, None, None);
        }
      }
      assert MarginChecks(config, margin, limited, originalQty, account, sensor, allowReduction)
             == FinalChecks(config, margin, effective, originalQty, account, sensor);
      if ratio > config.maxMarginRatio {
        return Evaluation(false, DENY, originalQty, 0, Some(EXCEEDED_MAX_MARGIN_RATIO), required, ratio, None, None);
      }
      if sensor.Some? && sensor.value.isMarginDietRequired && effective.tagId != "RISK_HEDGE" {
        return Evaluation(false, DENY, originalQty, 0, Some(MARGIN_DIET_ACTIVE), required, ratio, None, None);
      }
      var isReduced := effective.qty < originalQty;
      var decision := if isReduced then REDUCE else ALLOW;
      var signature := "SIG-RISK-APPROVED-" + effective.trackId + "-" + effective.clientOrderId;
      return Evaluation(true, decision, originalQty, effective.qty, None, required, ratio, Some(signature),
                        if isReduced then Some(effective) else None);
    }
  }

  class RiskGate {
    const engine: RiskEngine
    var lastEvaluation: Option<Evaluation>

    constructor (engine: RiskEngine)
      ensures this.engine == engine && lastEvaluation == None
    {
      this.engine := engine;
      lastEvaluation := None;
    }

    /** Admits exactly the approved orders, and keeps the evaluation for the router. */
    method AdmitOrder(command: RiskCommand, account: RiskAccount, positions: Positions,
                      sensor: Option<SensorSnapshot>, allowReduction: bool)
      returns (admitted: bool, signature: Option<string>, rejection: Option<Rejection>)
      modifies this
      ensures lastEvaluation == Some(Evaluate(
                engine.config, engine.margin, engine.isKillSwitchActive, engine.dailyRealizedLoss,
                command, account, positions, sensor, allowReduction))
      ensures admitted == lastEvaluation.value.isApproved
      ensures admitted ==> signature == lastEvaluation.value.signature && signature.Some? && rejection == None
      ensures !admitted ==> signature == None && rejection == lastEvaluation.value.rejection && rejection.Some?
    {
      var result := engine.EvaluateOrder(command, account, positions, sensor, allowReduction);
      lastEvaluation := Some(result);
      if result.isApproved && result.signature.Some? {
        return true, result.signature, None;
      }
      return false, None, result.rejection;
    }
  }
}
