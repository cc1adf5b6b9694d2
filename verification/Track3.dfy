/** Statistical arbitrage: one two-legged position group at a time. */
module Track3 {
  import opened Contracts
  import opened Decisions
  import opened Numbers
  import opened RuntimeIdentity

  datatype Spread = SHORT_SPREAD | LONG_SPREAD

  datatype Regime = NORMAL | HIGH_VOLATILITY | EXTREME_MOVE | GAP

  /** The z-score with its validity, the deviation of the spread and the carry of the option legs are inputs. */
  datatype Track3MarketInput = Track3MarketInput(
    zScore: real, valid: bool, spreadDeviation: real, carry: real,
    activeVol: real, baseVol: real, priceChangeRate: real, bidAskSpread: real, gapPct: real, isGap: bool,
    time: string, marketStable: bool, spreadNormalizing: bool, allowSizeUp: bool,
    currentPnl: real, totalFees: real, premiumSpent: real, regime: Option<string>, date: string)

  datatype Config = Config(
    zEntryThreshold: real, zExitThreshold: real, zStopLossThreshold: real, maxHoldingTicks: int,
    minRequiredProfit: real, baseRoundTripCost: real)

  datatype LegType = FUTURES_SHORT | FUTURES_LONG | HEDGE_LEG

  datatype Leg = Leg(groupId: string, legType: LegType, qty: int)

  datatype Status =
    | HOLD | ENTRY_BLOCK | GAP_UNSTABLE_HOLD | OLD_DISLOCATION_BLOCK | PROFITABILITY_BLOCK | ENTER
    | MARKET_CLOSE_FLATTEN | TRAILING_PROFIT_LOCK | STOP_LOSS | TIMEOUT_EXIT | CLOSED

  predicate Closes(status: Status) {
    status in {MARKET_CLOSE_FLATTEN, TRAILING_PROFIT_LOCK, STOP_LOSS, TIMEOUT_EXIT, CLOSED}
  }

  datatype ArbSignal =
    | Execute(position: Spread, groupId: Option<string>, qty: int)
    | Close(position: Spread, groupId: Option<string>, qty: int)

  /** A closing evaluation reports no regime. */
  datatype Track3Result = Track3Result(status: Status, regime: Option<Regime>, zScore: real, signal: Option<ArbSignal>)

  datatype Track3State = Track3State(
    activePosition: Option<Spread>, activeGroupId: Option<string>, groupSequence: nat, cooldownTicks: int,
    holdingTicks: int, lastExitZScore: Option<real>, groupIntegrity: bool, legs: seq<Leg>, arbHighPnl: real,
    currentDate: string)

  const RESET := Track3State(None, None, 0, 0, 0, None, true, [], 0.0, "")

  // ----- helpers that only compute -----

  predicate NotBefore(time: string, bound: string) {
    !StringLess(time, bound)
  }

  function VolRatio(data: Track3MarketInput): real {
    data.activeVol / Max(0.1, data.baseVol)
  }

  function RegimeOf(data: Track3MarketInput): Regime {
    if data.regime in {Some("HIGH_VOL"), Some("HIGH_VOLATILITY")} then HIGH_VOLATILITY
    else if data.regime in {Some("EXTREME_MOVE"), Some("CIRCUIT_BREAKER"), Some("CRASH")} then EXTREME_MOVE
    else if data.regime in {Some("GAP"), Some("GAP_OPEN")} then GAP
    else if data.isGap || (StringLess(data.time, "09:05:00") && Abs(data.gapPct) >= 0.008) then GAP
    else if Abs(data.priceChangeRate) >= 0.02 || VolRatio(data) >= 2.5 then EXTREME_MOVE
    else if VolRatio(data) >= 1.4 || data.bidAskSpread > 0.3 then HIGH_VOLATILITY
    else NORMAL
  }

  function Threshold(config: Config, regime: Regime, volRatio: real): real {
    match regime
    case HIGH_VOLATILITY => Max(2.2, config.zEntryThreshold * volRatio * 1.2)
    case EXTREME_MOVE => 999.0
    case GAP => Max(2.0, config.zEntryThreshold * 1.1)
    case NORMAL => Max(1.5, config.zEntryThreshold * volRatio)
  }

  function MinProfit(config: Config, regime: Regime): real {
    match regime
    case HIGH_VOLATILITY => config.minRequiredProfit * 1.5
    case EXTREME_MOVE => config.minRequiredProfit * 3.0
    case GAP => config.minRequiredProfit * 1.3
    case NORMAL => config.minRequiredProfit
  }

  function EntryQty(regime: Regime, data: Track3MarketInput): int {
    match regime
    case HIGH_VOLATILITY => 1
    case EXTREME_MOVE => 0
    case GAP => 1
    case NORMAL => if Abs(data.zScore) >= 2.5 && data.allowSizeUp then 2 else 1
  }

  function RoundTripCost(config: Config, regime: Regime, qty: int, data: Track3MarketInput): real {
    var slippageTicks := if regime == NORMAL then 1.0 else if regime == HIGH_VOLATILITY then 2.0 else 3.0;
    6000.0 * qty as real + slippageTicks * 12500.0 * qty as real + data.bidAskSpread * 250000.0 * qty as real
    + config.baseRoundTripCost
  }

  function GrossProfit(data: Track3MarketInput, qty: int): real {
    Abs(data.zScore) * data.spreadDeviation * 0.8 * 250000.0 * qty as real
  }

  function EffectivePnl(data: Track3MarketInput): real {
    data.currentPnl + data.carry
  }

  // ----- group ids -----

  /** Zeros in front, up to four characters. */
  function ZeroFilled(s: string): string
    decreases 4 - |s|
  {
    if |s| >= 4 then s else ZeroFilled("0" + s)
  }

  function Padded(n: nat): string {
    ZeroFilled(Decimal(n))
  }

  function GroupId(date: string, sequence: nat): string {
    "ARB-GROUP-" + (if date == "" then "UNKNOWN" else date) + "-TRACK3-" + Padded(sequence)
  }

  lemma {:induction false} LeadingZero(s: string)
    requires AllDigits(s)
    ensures AllDigits("0" + s) && Numeral("0" + s) == Numeral(s)
  {
    if s == [] {
      assert ("0" + s)[..0] == [];
    } else {
      LeadingZero(s[..|s| - 1]);
      assert ("0" + s)[..|s|] == "0" + s[..|s| - 1];
    }
  }

  lemma {:induction false} ZerosReadBack(s: string)
    requires AllDigits(s)
    ensures AllDigits(ZeroFilled(s)) && Numeral(ZeroFilled(s)) == Numeral(s)
    decreases 4 - |s|
  {
    if |s| < 4 {
      LeadingZero(s);
      ZerosReadBack("0" + s);
    }
  }

  lemma PaddedReadsBack(n: nat)
    ensures AllDigits(Padded(n)) && Numeral(Padded(n)) == n
  {
    DecimalReadsBack(n);
    ZerosReadBack(Decimal(n));
  }

  /** Groups of different sequence numbers have different ids, whatever their dates. */
  lemma GroupIdsDiffer(date: string, m: nat, date': string, n: nat)
    requires GroupId(date, m) == GroupId(date', n)
    ensures m == n
  {
    PaddedReadsBack(m);
    PaddedReadsBack(n);
    var x := "ARB-GROUP-" + (if date == "" then "UNKNOWN" else date) + "-TRACK3";
    var y := "ARB-GROUP-" + (if date' == "" then "UNKNOWN" else date') + "-TRACK3";
    assert GroupId(date, m) == x + "-" + Padded(m);
    assert GroupId(date', n) == y + "-" + Padded(n);
    TailIsShort(x, Padded(m), y, Padded(n));
    TailIsShort(y, Padded(n), x, Padded(m));
    SamePlace(x, Padded(m), y, Padded(n));
  }

  // ----- one evaluation -----

  predicate NewDay(state: Track3State, data: Track3MarketInput) {
    data.date != "" && data.date != state.currentDate
  }

  /** What an evaluation does before it looks at the market: roll the date, count the cooldown down. */
  function Prepared(state: Track3State, data: Track3MarketInput): Track3State {
    var today :=
      if NewDay(state, data) then
        state.(currentDate := data.date, cooldownTicks := 0, holdingTicks := 0, activePosition := None,
               activeGroupId := None, lastExitZScore := None, legs := [], groupIntegrity := true)
      else state;
    if today.cooldownTicks > 0 then today.(cooldownTicks := today.cooldownTicks - 1) else today
  }

  function Entered(state: Track3State, data: Track3MarketInput, position: Spread, qty: int): Track3State {
    var id := GroupId(data.date, state.groupSequence + 1);
    state.(
      groupSequence := state.groupSequence + 1, activeGroupId := Some(id), activePosition := Some(position),
      holdingTicks := 0, arbHighPnl := 0.0, groupIntegrity := true,
      legs := [Leg(id, if position == SHORT_SPREAD then FUTURES_SHORT else FUTURES_LONG, qty), Leg(id, HEDGE_LEG, qty)])
  }

  /** The reason to stay out, if there is one. */
  function EntryRefusal(config: Config, state: Track3State, data: Track3MarketInput): Option<Status> {
    var regime, z := RegimeOf(data), data.zScore;
    if NotBefore(data.time, "15:00:00") || regime == EXTREME_MOVE || state.cooldownTicks > 0 then Some(ENTRY_BLOCK)
    else if regime == GAP && !(data.marketStable && data.spreadNormalizing) then Some(GAP_UNSTABLE_HOLD)
    else if state.lastExitZScore.Some? && Abs(z - state.lastExitZScore.value) < 0.8 then Some(OLD_DISLOCATION_BLOCK)
    else
      var qty := EntryQty(regime, data);
      if GrossProfit(data, qty) - RoundTripCost(config, regime, qty, data) < MinProfit(config, regime) then
        Some(PROFITABILITY_BLOCK)
      else if Abs(z) < Threshold(config, regime, VolRatio(data)) then Some(HOLD)
      else None
  }

  function AfterFlat(config: Config, state: Track3State, data: Track3MarketInput): (Track3State, Track3Result) {
    var refusal := EntryRefusal(config, state, data);
    if refusal.Some? then (state, Track3Result(refusal.value, Some(RegimeOf(data)), data.zScore, None))
    else
      // thresholds are positive, so only one side can be reached
      var threshold := Threshold(config, RegimeOf(data), VolRatio(data));
      var position := if data.zScore >= threshold then SHORT_SPREAD else LONG_SPREAD;
      var qty := EntryQty(RegimeOf(data), data);
      var after := Entered(state, data, position, qty);
      (after, Track3Result(ENTER, Some(RegimeOf(data)), data.zScore, Some(Execute(position, after.activeGroupId, qty))))
  }

  function Trailing(ratio: real): real {
    if ratio >= 2.0 then 0.90 else if ratio >= 1.3 then 0.88 else 0.85
  }

  function HighPnl(state: Track3State, data: Track3MarketInput): real {
    Max(state.arbHighPnl, EffectivePnl(data))
  }

  predicate LocksProfit(high: real, data: Track3MarketInput) {
    high > 30000.0 && EffectivePnl(data) <= high * Trailing(high / Max(1.0, data.premiumSpent))
  }

  predicate StopsOut(config: Config, position: Spread, z: real) {
    if position == SHORT_SPREAD then z >= config.zStopLossThreshold else z <= -config.zStopLossThreshold
  }

  predicate Converged(config: Config, position: Spread, z: real) {
    if position == SHORT_SPREAD then z <= config.zExitThreshold else z >= -config.zExitThreshold
  }

  predicate Profitable(config: Config, position: Spread, data: Track3MarketInput) {
    var regime, pnl := RegimeOf(data), EffectivePnl(data);
    || pnl - data.totalFees - RoundTripCost(config, regime, 1, data) >= -5000.0
    || (regime == HIGH_VOLATILITY && pnl > 10000.0)
    || (regime == GAP && Converged(config, position, data.zScore) && pnl > 5000.0)
  }

  /** The reason to close, if there is one; `holding` counts this evaluation. */
  function ExitReason(config: Config, state: Track3State, position: Spread, holding: int, data: Track3MarketInput)
    : (r: Option<Status>)
    ensures r.Some? ==> Closes(r.value)
  {
    if NotBefore(data.time, "15:15:00") then Some(MARKET_CLOSE_FLATTEN)
    else if LocksProfit(HighPnl(state, data), data) then Some(TRAILING_PROFIT_LOCK)
    else if StopsOut(config, position, data.zScore) then Some(STOP_LOSS)
    else if holding >= config.maxHoldingTicks then Some(TIMEOUT_EXIT)
    else if Converged(config, position, data.zScore) && Profitable(config, position, data) && state.groupIntegrity
    then Some(CLOSED)
    else None
  }

  function Cooldown(status: Status): int {
    if status == STOP_LOSS then 40 else 20
  }

  function Exited(state: Track3State, z: real, status: Status): Track3State {
    state.(lastExitZScore := Some(z), activePosition := None, activeGroupId := None, legs := [],
           cooldownTicks := Cooldown(status), holdingTicks := 0)
  }

  /** At the market close the high-water mark is not updated any more. */
  function Watched(state: Track3State, data: Track3MarketInput): Track3State {
    state.(holdingTicks := state.holdingTicks + 1,
           arbHighPnl := if NotBefore(data.time, "15:15:00") then state.arbHighPnl else HighPnl(state, data))
  }

  function AfterHeld(config: Config, state: Track3State, position: Spread, data: Track3MarketInput)
    : (Track3State, Track3Result)
  {
    var watched := Watched(state, data);
    var reason := ExitReason(config, state, position, watched.holdingTicks, data);
    if reason.None? then (watched, Track3Result(HOLD, Some(RegimeOf(data)), data.zScore, None))
    else
      (Exited(watched, data.zScore, reason.value),
       Track3Result(reason.value, None, data.zScore, Some(Close(position, state.activeGroupId, 1))))
  }

  function Evaluated(config: Config, state: Track3State, data: Track3MarketInput): (Track3State, Track3Result) {
    var prepared := Prepared(state, data);
    if !data.valid then (prepared, Track3Result(HOLD, Some(RegimeOf(data)), data.zScore, None))
    else if prepared.activePosition.None? then AfterFlat(config, prepared, data)
    else AfterHeld(config, prepared, prepared.activePosition.value, data)
  }

  class Track3StatisticalArbitrage {
    const config: Config
    var activePosition: Option<Spread>
    var activeGroupId: Option<string>
    var groupSequence: nat
    var cooldownTicks: int
    var holdingTicks: int
    var lastExitZScore: Option<real>
    var groupIntegrity: bool
    var positionGroupLegs: seq<Leg>
    var arbHighPnl: real
    var currentDate: string

    ghost function Value(): Track3State
      reads this
    {
      Track3State(activePosition, activeGroupId, groupSequence, cooldownTicks, holdingTicks, lastExitZScore,
                  groupIntegrity, positionGroupLegs, arbHighPnl, currentDate)
    }

    constructor (config: Config)
      ensures this.config == config && Value() == RESET
    {
      this.config := config;
      activePosition, activeGroupId, groupSequence, cooldownTicks, holdingTicks := None, None, 0, 0, 0;
      lastExitZScore, groupIntegrity, positionGroupLegs, arbHighPnl, currentDate := None, true, [], 0.0, "";
    }

    method Reset()
      modifies this
      ensures Value() == RESET
    {
      activePosition, activeGroupId, groupSequence, cooldownTicks, holdingTicks := None, None, 0, 0, 0;
      lastExitZScore, groupIntegrity, positionGroupLegs, arbHighPnl, currentDate := None, true, [], 0.0, "";
    }

    method EvaluateInput(data: Track3MarketInput) returns (r: Track3Result)
      modifies this
      ensures (Value(), r) == Evaluated(config, old(Value()), data)
    {
      if data.date != "" && data.date != currentDate {
        currentDate, cooldownTicks, holdingTicks := data.date, 0, 0;
        activePosition, activeGroupId, lastExitZScore := None, None, None;
        positionGroupLegs, groupIntegrity := [], true;
      }
      if cooldownTicks > 0 {
        cooldownTicks := cooldownTicks - 1;
      }
      if !data.valid { return Track3Result(HOLD, Some(RegimeOf(data)), data.zScore, None); }
      if activePosition.None? {
        r := EvaluateEntry(data);
      } else {
        r := EvaluateExit(data);
      }
    }

    method EvaluateEntry(data: Track3MarketInput) returns (r: Track3Result)
      requires activePosition.None?
      modifies this
      ensures (Value(), r) == AfterFlat(config, old(Value()), data)
    {
      var regime := RegimeOf(data);
      if NotBefore(data.time, "15:00:00") || regime == EXTREME_MOVE || cooldownTicks > 0 {
        return Track3Result(ENTRY_BLOCK, Some(regime), data.zScore, None);
      }
      if regime == GAP && !(data.marketStable && data.spreadNormalizing) {
        return Track3Result(GAP_UNSTABLE_HOLD, Some(regime), data.zScore, None);
      }
      if lastExitZScore.Some? && Abs(data.zScore - lastExitZScore.value) < 0.8 {
        return Track3Result(OLD_DISLOCATION_BLOCK, Some(regime), data.zScore, None);
      }
      var qty := EntryQty(regime, data);
      var net := GrossProfit(data, qty) - RoundTripCost(config, regime, qty, data);
      if net < MinProfit(config, regime) { return Track3Result(PROFITABILITY_BLOCK, Some(regime), data.zScore, None); }
      var threshold := Threshold(config, regime, VolRatio(data));
      var position;
      if data.zScore >= threshold {
        position := SHORT_SPREAD;
      } else if data.zScore <= -threshold {
        position := LONG_SPREAD;
      } else {
        return Track3Result(HOLD, Some(regime), data.zScore, None);
      }
      groupSequence := groupSequence + 1;
      var id := GroupId(data.date, groupSequence);
      activeGroupId, activePosition := Some(id), Some(position);
      holdingTicks, arbHighPnl, groupIntegrity := 0, 0.0, true;
      positionGroupLegs :=
        [Leg(id, if position == SHORT_SPREAD then FUTURES_SHORT else FUTURES_LONG, qty), Leg(id, HEDGE_LEG, qty)];
      return Track3Result(ENTER, Some(regime), data.zScore, Some(Execute(position, activeGroupId, qty)));
    }

    method EvaluateExit(data: Track3MarketInput) returns (r: Track3Result)
      requires activePosition.Some?
      modifies this
      ensures (Value(), r) == AfterHeld(config, old(Value()), old(activePosition).value, data)
    {
      var position, pnl := activePosition.value, EffectivePnl(data);
      holdingTicks := holdingTicks + 1;
      if NotBefore(data.time, "15:15:00") {
        r := CloseGroup(position, MARKET_CLOSE_FLATTEN, data.zScore, 20);
        return;
      }
      arbHighPnl := Max(arbHighPnl, pnl);
      if arbHighPnl > 30000.0 {
        var trailing := Trailing(arbHighPnl / Max(1.0, data.premiumSpent));
        if pnl <= arbHighPnl * trailing {
          r := CloseGroup(position, TRAILING_PROFIT_LOCK, data.zScore, 20);
          return;
        }
      }
      if StopsOut(config, position, data.zScore) {
        r := CloseGroup(position, STOP_LOSS, data.zScore, 40);
        return;
      }
      if holdingTicks >= config.maxHoldingTicks {
        r := CloseGroup(position, TIMEOUT_EXIT, data.zScore, 20);
        return;
      }
      var converged := Converged(config, position, data.zScore);
      if converged && Profitable(config, position, data) && groupIntegrity {
        r := CloseGroup(position, CLOSED, data.zScore, 20);
        return;
      }
      return Track3Result(HOLD, Some(RegimeOf(data)), data.zScore, None);
    }

    method CloseGroup(position: Spread, status: Status, zScore: real, cooldown: int) returns (r: Track3Result)
      requires Closes(status) && cooldown == Cooldown(status)
      modifies this
      ensures Value() == Exited(old(Value()), zScore, status)
      ensures r == Track3Result(status, None, zScore, Some(Close(position, old(activeGroupId), 1)))
    {
      r := Track3Result(status, None, zScore, Some(Close(position, activeGroupId, 1)));
      lastExitZScore, activePosition, activeGroupId := Some(zScore), None, None;
      positionGroupLegs, cooldownTicks, holdingTicks := [], cooldown, 0;
    }
  }

  // ----- the position group -----

  /** A position exactly when there is a group id, and then exactly two legs that carry it. */
  ghost predicate OneGroup(state: Track3State) {
    && (state.activePosition.Some? <==> state.activeGroupId.Some?)
    && (state.activePosition.None? ==> state.legs == [] && state.holdingTicks == 0)
    && (state.activePosition.Some? ==>
          && |state.legs| == 2
          && state.legs[0].groupId == state.legs[1].groupId == state.activeGroupId.value
          && state.legs[0].legType
             == (if state.activePosition.value == SHORT_SPREAD then FUTURES_SHORT else FUTURES_LONG)
          && state.legs[1].legType == HEDGE_LEG
          && state.legs[0].qty == state.legs[1].qty > 0)
  }

  /** The group that is open is the last one that was opened. */
  ghost predicate NewestGroup(state: Track3State) {
    state.activeGroupId.Some? ==>
      state.groupSequence > 0 && exists date :: state.activeGroupId.value == GroupId(date, state.groupSequence)
  }

  /** Never held longer than the limit. */
  ghost predicate WithinLimit(config: Config, state: Track3State) {
    0 <= state.holdingTicks && (state.holdingTicks == 0 || state.holdingTicks < config.maxHoldingTicks)
  }

  ghost predicate Invariant(config: Config, state: Track3State) {
    OneGroup(state) && NewestGroup(state) && WithinLimit(config, state) && state.cooldownTicks >= 0
  }

  lemma EvaluationKeepsInvariant(config: Config, state: Track3State, data: Track3MarketInput)
    requires Invariant(config, state)
    ensures Invariant(config, Evaluated(config, state, data).0)
  {
    var prepared := Prepared(state, data);
    assert Invariant(config, prepared);
    if data.valid && prepared.activePosition.None? && EntryRefusal(config, prepared, data).None? {
      var after := AfterFlat(config, prepared, data).0;
      assert after.activeGroupId.value == GroupId(data.date, after.groupSequence);
    }
  }
}
