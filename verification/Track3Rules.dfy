/** What Track3 decides on, said of its inputs. */
module Track3Rules {
  import opened Contracts
  import opened Decisions
  import opened Numbers
  import opened Track3
  import opened Track3Runs

  // ----- regimes and prices -----

  function Names(regime: Regime): set<string> {
    match regime
    case HIGH_VOLATILITY => {"HIGH_VOL", "HIGH_VOLATILITY"}
    case EXTREME_MOVE => {"EXTREME_MOVE", "CIRCUIT_BREAKER", "CRASH"}
    case GAP => {"GAP", "GAP_OPEN"}
    case NORMAL => {}
  }

  predicate Named(data: Track3MarketInput, regime: Regime) {
    data.regime.Some? && data.regime.value in Names(regime)
  }

  predicate NamedAtAll(data: Track3MarketInput) {
    Named(data, HIGH_VOLATILITY) || Named(data, EXTREME_MOVE) || Named(data, GAP)
  }

  /** The market is this many times as volatile as usual. */
  predicate TimesAsVolatile(data: Track3MarketInput, factor: real) {
    data.activeVol >= factor * Max(0.1, data.baseVol)
  }

  predicate LooksGapped(data: Track3MarketInput) {
    data.isGap
    || (StringLess(data.time, "09:05:00") && (data.gapPct >= 0.008 || data.gapPct <= -0.008))
  }

  predicate LooksExtreme(data: Track3MarketInput) {
    data.priceChangeRate >= 0.02 || data.priceChangeRate <= -0.02 || TimesAsVolatile(data, 2.5)
  }

  predicate LooksVolatile(data: Track3MarketInput) {
    TimesAsVolatile(data, 1.4) || data.bidAskSpread > 0.3
  }

  /** A regime that is named counts; otherwise a gap comes before an extreme move, and that before high volatility. */
  lemma RegimesAreTold(data: Track3MarketInput)
    ensures forall regime :: Named(data, regime) ==> RegimeOf(data) == regime
    ensures !NamedAtAll(data) ==>
              && (RegimeOf(data) == GAP <==> LooksGapped(data))
              && (RegimeOf(data) == EXTREME_MOVE <==> !LooksGapped(data) && LooksExtreme(data))
              && (RegimeOf(data) == HIGH_VOLATILITY <==>
                    !LooksGapped(data) && !LooksExtreme(data) && LooksVolatile(data))
  {
    QuotientAtLeast(data.activeVol, Max(0.1, data.baseVol), 2.5);
    QuotientAtLeast(data.activeVol, Max(0.1, data.baseVol), 1.4);
  }

  /** Fees for two legs, slippage by the tick, and the spread: what one unit costs there and back. */
  function UnitCost(regime: Regime, data: Track3MarketInput): real {
    var ticks := match regime
      case NORMAL => 1.0
      case HIGH_VOLATILITY => 2.0
      case EXTREME_MOVE => 3.0
      case GAP => 3.0;
    2.0 * 3000.0 + 250000.0 * (0.05 * ticks + data.bidAskSpread)
  }

  /** The cost of an order is that of its units beside a fixed part, and what it can gain is that of its units. */
  lemma CostIsByTheUnit(config: Config, regime: Regime, qty: int, data: Track3MarketInput)
    ensures RoundTripCost(config, regime, qty, data) == config.baseRoundTripCost + UnitCost(regime, data) * qty as real
    ensures GrossProfit(data, qty) == 200000.0 * Abs(data.zScore) * data.spreadDeviation * qty as real
  {
    var units := qty as real;
    assert data.bidAskSpread * 250000.0 * units == 250000.0 * data.bidAskSpread * units;
    assert Abs(data.zScore) * data.spreadDeviation * 0.8 * 250000.0
           == 200000.0 * Abs(data.zScore) * data.spreadDeviation;
  }

  // ----- exits -----

  /** How far the z-score stands out on the side on which the position was entered. */
  function Out(position: Spread, z: real): real {
    if position == SHORT_SPREAD then z else -z
  }

  /** The share of its highest profit that a position keeps, larger the more it has won on its premium. */
  function KeptShare(high: real, premium: real): real {
    if high >= 2.0 * Max(1.0, premium) then 0.90
    else if high >= 1.3 * Max(1.0, premium) then 0.88
    else 0.85
  }

  lemma ShareIsTrailing(high: real, premium: real)
    ensures Trailing(high / Max(1.0, premium)) == KeptShare(high, premium)
  {
    QuotientAtLeast(high, Max(1.0, premium), 2.0);
    QuotientAtLeast(high, Max(1.0, premium), 1.3);
  }

  predicate GivesBack(high: real, data: Track3MarketInput) {
    high > 30000.0 && data.currentPnl + data.carry <= KeptShare(high, data.premiumSpent) * high
  }

  /** Closing one unit loses at most 5000, or the market is one in which less will do. */
  predicate WorthClosing(config: Config, data: Track3MarketInput) {
    var regime, pnl := RegimeOf(data), data.currentPnl + data.carry;
    || pnl + 5000.0 >= data.totalFees + config.baseRoundTripCost + UnitCost(regime, data)
    || (regime == HIGH_VOLATILITY && pnl > 10000.0)
    || (regime == GAP && pnl > 5000.0)
  }

  /**
    How a held group is judged: by the first of the market close, a profit given back, the stop, the time held, and a
    spread that has come back and is worth closing. Nothing else closes it.
   */
  function Verdict(config: Config, state: Track3State, position: Spread, data: Track3MarketInput): Track3.Status {
    var high := Max(state.arbHighPnl, data.currentPnl + data.carry);
    if !StringLess(data.time, "15:15:00") then MARKET_CLOSE_FLATTEN
    else if GivesBack(high, data) then TRAILING_PROFIT_LOCK
    else if Out(position, data.zScore) >= config.zStopLossThreshold then STOP_LOSS
    else if config.maxHoldingTicks <= state.holdingTicks + 1 then TIMEOUT_EXIT
    else if Out(position, data.zScore) <= config.zExitThreshold && WorthClosing(config, data) && state.groupIntegrity
    then CLOSED
    else HOLD
  }

  lemma HeldIsJudgedExactly(config: Config, state: Track3State, position: Spread, data: Track3MarketInput)
    ensures var reason := ExitReason(config, state, position, state.holdingTicks + 1, data);
            Verdict(config, state, position, data) == if reason.Some? then reason.value else HOLD
  {
    CostIsByTheUnit(config, RegimeOf(data), 1, data);
    ShareIsTrailing(HighPnl(state, data), data.premiumSpent);
  }

  /** Nothing is held, nothing can be entered for a while, and the strategy knows where it left. */
  ghost predicate LeftAt(before: Track3State, after: Track3State, z: real, pause: int) {
    && after.activePosition.None? && after.activeGroupId.None? && after.legs == [] && after.holdingTicks == 0
    && after.cooldownTicks == pause && after.lastExitZScore == Some(z)
    && after.currentDate == before.currentDate && after.groupSequence == before.groupSequence
  }

  /** The same group, one evaluation older, with its highest profit so far. */
  ghost predicate HeldOn(before: Track3State, after: Track3State, data: Track3MarketInput) {
    && after.activePosition == before.activePosition && after.activeGroupId == before.activeGroupId
    && after.legs == before.legs && after.groupIntegrity == before.groupIntegrity
    && after.holdingTicks == before.holdingTicks + 1
    && after.arbHighPnl >= before.arbHighPnl && after.arbHighPnl >= data.currentPnl + data.carry
    && (after.arbHighPnl == before.arbHighPnl || after.arbHighPnl == data.currentPnl + data.carry)
  }

  /**
    What becomes of a held group, exactly. A valid evaluation of the same day closes it under the reason it is
    judged by, names that very group in its signal, and leaves the strategy pausing, 40 calls after a stop and 20
    otherwise; or it holds on to it.
   */
  lemma ExitsExactly(config: Config, state: Track3State, data: Track3MarketInput)
    requires state.activePosition.Some? && data.valid && !NewDay(state, data)
    ensures var (after, result) := Evaluated(config, state, data);
            var position := state.activePosition.value;
            && result.status == Verdict(config, state, position, data)
            && (result.status != HOLD ==>
                  && result.signal == Some(Close(position, state.activeGroupId, 1))
                  && LeftAt(state, after, data.zScore, if result.status == STOP_LOSS then 40 else 20)
                  && after.arbHighPnl == (if result.status == MARKET_CLOSE_FLATTEN then state.arbHighPnl
                                          else Max(state.arbHighPnl, data.currentPnl + data.carry)))
            && (result.status == HOLD ==> result.signal.None? && HeldOn(state, after, data))
  {
    var prepared := Prepared(state, data);
    HeldIsJudgedExactly(config, prepared, state.activePosition.value, data);
  }

  /** A group that is held on has not lost what it must keep, is not stopped, and has time left. */
  lemma HeldKeepsItsProfit(config: Config, state: Track3State, data: Track3MarketInput)
    requires state.activePosition.Some? && data.valid && !NewDay(state, data)
    requires Evaluated(config, state, data).0.activePosition.Some?
    ensures var after := Evaluated(config, state, data).0;
            && (after.arbHighPnl > 30000.0 ==> data.currentPnl + data.carry > 0.85 * after.arbHighPnl)
            && Out(state.activePosition.value, data.zScore) < config.zStopLossThreshold
            && after.holdingTicks < config.maxHoldingTicks
            && StringLess(data.time, "15:15:00")
  {
    ExitsExactly(config, state, data);
    var high := Max(state.arbHighPnl, data.currentPnl + data.carry);
    if high > 30000.0 {
      assert KeptShare(high, data.premiumSpent) >= 0.85;
      assert (KeptShare(high, data.premiumSpent) - 0.85) * high >= 0.0;
    }
  }

  /**
    A close asks for one unit. It closes the whole of a group exactly if the group was entered with one: what was
    entered with two leaves one behind.
   */
  lemma CloseCoversGroupExactly(config: Config, state: Track3State, entry: Track3MarketInput, close: Track3MarketInput)
    requires Evaluated(config, state, entry).1.status == ENTER
    requires var held := Evaluated(config, state, entry).0;
             && !NewDay(held, close) && Closes(Evaluated(config, held, close).1.status)
    ensures var (held, enter) := Evaluated(config, state, entry);
            var closed := Evaluated(config, held, close).1;
            && enter.signal.Some? && closed.signal.Some?
            && closed.signal.value.groupId == enter.signal.value.groupId
            && closed.signal.value.position == enter.signal.value.position
            && (closed.signal.value.qty == enter.signal.value.qty <==>
                  !(RegimeOf(entry) == NORMAL && entry.allowSizeUp && Abs(entry.zScore) >= 2.5))
  {
    var held := Evaluated(config, state, entry).0;
    EntryIsJustified(config, state, entry);
    ExitsExactly(config, held, close);
  }

  // ----- entries -----

  /** The z-score is far enough out for the regime, on either side. */
  predicate FarOut(config: Config, regime: Regime, data: Track3MarketInput) {
    var out := Abs(data.zScore);
    match regime
    case HIGH_VOLATILITY => out >= 2.2 && out >= 1.2 * (config.zEntryThreshold * VolRatio(data))
    case GAP => out >= 2.0 && out >= 1.1 * config.zEntryThreshold
    case NORMAL => out >= 1.5 && out >= config.zEntryThreshold * VolRatio(data)
    case EXTREME_MOVE => out >= 999.0
  }

  /** Two units only in a normal market, far out, and if the input allows them. */
  function Units(regime: Regime, data: Track3MarketInput): int {
    match regime
    case NORMAL => if data.allowSizeUp && (data.zScore >= 2.5 || data.zScore <= -2.5) then 2 else 1
    case HIGH_VOLATILITY => 1
    case GAP => 1
    case EXTREME_MOVE => 0
  }

  /** What the units can gain beyond their cost is the profit required in the regime. */
  predicate Pays(config: Config, regime: Regime, data: Track3MarketInput) {
    var factor := match regime case NORMAL => 1.0 case HIGH_VOLATILITY => 1.5 case GAP => 1.3 case EXTREME_MOVE => 3.0;
    var gain := 200000.0 * Abs(data.zScore) * data.spreadDeviation - UnitCost(regime, data);
    gain * Units(regime, data) as real >= config.baseRoundTripCost + factor * config.minRequiredProfit
  }

  lemma PaysIsProfitable(config: Config, regime: Regime, data: Track3MarketInput)
    ensures EntryQty(regime, data) == Units(regime, data)
    ensures var qty := Units(regime, data);
            var net := GrossProfit(data, qty) - RoundTripCost(config, regime, qty, data);
            net >= MinProfit(config, regime) <==> Pays(config, regime, data)
  {
    var qty := Units(regime, data);
    CostIsByTheUnit(config, regime, qty, data);
    var each, unit := 200000.0 * Abs(data.zScore) * data.spreadDeviation, UnitCost(regime, data);
    assert (each - unit) * qty as real == each * qty as real - unit * qty as real;
  }

  /** The strategy has left near here before, and nothing has moved since. */
  predicate OldDislocation(state: Track3State, data: Track3MarketInput) {
    state.lastExitZScore.Some? &&
    -0.8 < data.zScore - state.lastExitZScore.value < 0.8
  }

  /** How a flat strategy answers: by the first thing that keeps it out, or by entering. */
  function Answer(config: Config, state: Track3State, data: Track3MarketInput): Track3.Status {
    var regime := RegimeOf(data);
    if !StringLess(data.time, "15:00:00") || regime == EXTREME_MOVE || state.cooldownTicks > 0 then ENTRY_BLOCK
    else if regime == GAP && (!data.marketStable || !data.spreadNormalizing) then GAP_UNSTABLE_HOLD
    else if OldDislocation(state, data) then OLD_DISLOCATION_BLOCK
    else if !Pays(config, regime, data) then PROFITABILITY_BLOCK
    else if !FarOut(config, regime, data) then HOLD
    else ENTER
  }

  lemma FlatAnswersExactly(config: Config, state: Track3State, data: Track3MarketInput)
    ensures var refusal := EntryRefusal(config, state, data);
            Answer(config, state, data) == if refusal.Some? then refusal.value else ENTER
  {
    PaysIsProfitable(config, RegimeOf(data), data);
  }

  /** What a strategy sees of itself at the next evaluation: a new day drops everything, and a pause shortens. */
  ghost predicate SeenNext(state: Track3State, data: Track3MarketInput, today: Track3State) {
    var rolls := data.date != "" && data.date != state.currentDate;
    var pause := if rolls then 0 else state.cooldownTicks;
    && today.currentDate == (if rolls then data.date else state.currentDate)
    && today.activePosition == (if rolls then None else state.activePosition)
    && today.activeGroupId == (if rolls then None else state.activeGroupId)
    && today.lastExitZScore == (if rolls then None else state.lastExitZScore)
    && today.legs == (if rolls then [] else state.legs)
    && today.holdingTicks == (if rolls then 0 else state.holdingTicks)
    && today.groupIntegrity == (rolls || state.groupIntegrity)
    && today.cooldownTicks == (if pause > 0 then pause - 1 else pause)
    && today.groupSequence == state.groupSequence && today.arbHighPnl == state.arbHighPnl
  }

  /** A group of two legs on opposite sides, fresh, under the next number. */
  ghost predicate Opens(before: Track3State, after: Track3State, data: Track3MarketInput, units: int) {
    var short := data.zScore > 0.0;
    && after.groupSequence == before.groupSequence + 1
    && after.activeGroupId == Some(GroupId(data.date, after.groupSequence))
    && after.activePosition == Some(if short then SHORT_SPREAD else LONG_SPREAD)
    && after.legs == [Leg(after.activeGroupId.value, if short then FUTURES_SHORT else FUTURES_LONG, units),
                      Leg(after.activeGroupId.value, HEDGE_LEG, units)]
    && after.holdingTicks == 0 && after.arbHighPnl == 0.0 && after.groupIntegrity
    && after.currentDate == before.currentDate && after.lastExitZScore == before.lastExitZScore
  }

  /**
    What becomes of a flat strategy, exactly, whatever day it is: a valid evaluation enters a group of its units on
    the side of the z-score, and says so, or leaves the strategy as the day found it.
   */
  lemma EntersExactly(config: Config, state: Track3State, data: Track3MarketInput)
    requires state.activePosition.None? || NewDay(state, data)
    requires data.valid
    ensures var (after, result) := Evaluated(config, state, data);
            var today := Prepared(state, data);
            && SeenNext(state, data, today)
            && result.status == Answer(config, today, data)
            && result.regime == Some(RegimeOf(data)) && result.zScore == data.zScore
            && (result.status != ENTER ==> after == today && result.signal.None?)
            && (result.status == ENTER ==>
                  && Opens(today, after, data, Units(RegimeOf(data), data))
                  && result.signal == Some(Execute(after.activePosition.value, after.activeGroupId,
                                                   Units(RegimeOf(data), data))))
  {
    var today := Prepared(state, data);
    FlatAnswersExactly(config, today, data);
    PaysIsProfitable(config, RegimeOf(data), data);
    ThresholdsAreHigh(config, RegimeOf(data), VolRatio(data));
  }

  /** An invalid z-score changes nothing but the day and the pause. */
  lemma InvalidOnlyWaits(config: Config, state: Track3State, data: Track3MarketInput)
    requires !data.valid
    ensures var (after, result) := Evaluated(config, state, data);
            SeenNext(state, data, after) && result.status == HOLD && result.signal.None?
  {
  }
}
