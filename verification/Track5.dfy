/** Gap divergence: one position between a target and a stop, for at most thirty price ticks. */
module Track5 {
  import opened Contracts
  import opened Numbers

  datatype Direction = LONG | SHORT

  datatype Track5MarketInput = Track5MarketInput(
    openPrice: real, previousClose: real, activeVol: real, regime: string, currentPrice: Option<real>)

  datatype Track5State = Track5State(
    isActive: bool, direction: Option<Direction>, entryPrice: real, targetPrice: real, stopLossPrice: real,
    openTicks: nat, peakPnl: real, trailingActive: bool, liquidityStage: int, dailyStdPts: real)

  const RESET := Track5State(false, None, 0.0, 0.0, 0.0, 0, 0.0, false, 0, 1.5)

  datatype ExitReason = MEAN_REVERSION_TARGET | DYNAMIC_STOP | TIMEOUT_15M | TRAILING_LOCK

  datatype Track5Signal =
    | Enter(direction: Direction, confidence: real, zScore: real, entry: real, target: real, stop: real)
    | Close(reason: ExitReason, pnl: real)
    | Liquidity(stage: int, price: real, pnl: real)

  function DailyStdPoints(previousClose: real, activeVol: real): real {
    previousClose * (0.15 / 15.874507866) * activeVol
  }

  function EffectiveZThreshold(zThreshold: real, regime: string): real {
    if regime in {"HIGH_VOL", "NOISE_CHOPPY", "CIRCUIT_BREAKER"} then 1.8
    else if regime in {"NORMAL", "NEUTRAL"} then 1.1
    else zThreshold
  }

  function ZScore(data: Track5MarketInput): real {
    (data.openPrice - data.previousClose) / Max(0.1, DailyStdPoints(data.previousClose, data.activeVol))
  }

  function StopDistance(dailyStd: real): real {
    Max(1.0, dailyStd * 0.8)
  }

  predicate Admits(zThreshold: real, data: Track5MarketInput) {
    && data.previousClose > 0.0 && data.activeVol >= 0.0
    && DailyStdPoints(data.previousClose, data.activeVol) > 0.0
    && EffectiveZThreshold(zThreshold, data.regime) <= Abs(ZScore(data)) < 4.0
  }

  function Opened(state: Track5State, data: Track5MarketInput): Track5State {
    var dailyStd := DailyStdPoints(data.previousClose, data.activeVol);
    var direction := if ZScore(data) > 0.0 then SHORT else LONG;
    var distance := StopDistance(dailyStd);
    var stop := if direction == SHORT then data.openPrice + distance else data.openPrice - distance;
    state.(isActive := true, direction := Some(direction), entryPrice := data.openPrice,
           targetPrice := data.previousClose, stopLossPrice := stop, openTicks := 0, peakPnl := 0.0,
           trailingActive := false, liquidityStage := 0, dailyStdPts := dailyStd)
  }

  function AfterGap(zThreshold: real, state: Track5State, data: Track5MarketInput)
    : (Track5State, Option<Track5Signal>)
  {
    if state.isActive || !Admits(zThreshold, data) then (state, None)
    else
      var entered := Opened(state, data);
      var confidence := if Abs(ZScore(data)) / 4.0 < 1.0 then Abs(ZScore(data)) / 4.0 else 1.0;
      (entered, Some(Enter(entered.direction.value, confidence, ZScore(data), entered.entryPrice, entered.targetPrice,
                           entered.stopLossPrice)))
  }

  function Pnl(state: Track5State, direction: Direction, price: real): real {
    if direction == SHORT then state.entryPrice - price else price - state.entryPrice
  }

  predicate AtTarget(state: Track5State, direction: Direction, price: real) {
    if direction == SHORT then price <= state.targetPrice else price >= state.targetPrice
  }

  predicate AtStop(state: Track5State, direction: Direction, price: real) {
    if direction == SHORT then price >= state.stopLossPrice else price <= state.stopLossPrice
  }

  function TrailThreshold(dailyStd: real): real {
    Max(0.3, dailyStd * 0.3)
  }

  /** The give-back that ends a trailing position, smaller the more has been won. */
  function EffectiveReversal(dailyStd: real, pnl: real): real {
    var ratio := pnl / Max(0.1, dailyStd);
    Max(0.1, dailyStd * 0.1) * (if ratio >= 1.0 then 0.67 else if ratio >= 0.3 then 0.80 else 1.0)
  }

  /** One price tick seen: counted, and the peak and the trailing flag brought up to date. */
  function Seen(state: Track5State, pnl: real): Track5State {
    state.(openTicks := state.openTicks + 1, peakPnl := Max(state.peakPnl, pnl),
           trailingActive := state.trailingActive || pnl >= TrailThreshold(state.dailyStdPts))
  }

  function ReasonToClose(seen: Track5State, direction: Direction, price: real, pnl: real): Option<ExitReason> {
    if AtTarget(seen, direction, price) then Some(MEAN_REVERSION_TARGET)
    else if AtStop(seen, direction, price) then Some(DYNAMIC_STOP)
    else if seen.openTicks >= 30 then Some(TIMEOUT_15M)
    else if seen.trailingActive && seen.peakPnl - pnl >= EffectiveReversal(seen.dailyStdPts, pnl) then
      Some(TRAILING_LOCK)
    else None
  }

  function AfterPrice(state: Track5State, price: real): (Track5State, Option<Track5Signal>) {
    if !state.isActive || state.direction.None? then (state, None)
    else
      var direction := state.direction.value;
      var pnl := Pnl(state, direction, price);
      var seen := Seen(state, pnl);
      var reason := ReasonToClose(seen, direction, price, pnl);
      if reason.Some? then (RESET, Some(Close(reason.value, pnl)))
      else if pnl >= TrailThreshold(seen.dailyStdPts) * 0.75 && seen.liquidityStage == 0 then
        (seen.(liquidityStage := 1), Some(Liquidity(1, price, pnl)))
      else if pnl >= TrailThreshold(seen.dailyStdPts) * 1.5 && seen.liquidityStage == 1 then
        (seen.(liquidityStage := 2), Some(Liquidity(2, price, pnl)))
      else (seen, None)
  }

  /** An input without a current price is an opening; any other goes to the position if there is one. */
  function Evaluated(zThreshold: real, state: Track5State, data: Track5MarketInput)
    : (Track5State, Option<Track5Signal>)
  {
    if data.currentPrice.None? || !state.isActive then AfterGap(zThreshold, state, data)
    else AfterPrice(state, data.currentPrice.value)
  }

  class Track5GapDivergence {
    const zThreshold: real
    var state: Track5State

    constructor (zThreshold: real)
      ensures this.zThreshold == zThreshold && state == RESET
    {
      this.zThreshold := zThreshold;
      state := RESET;
    }

    method Reset()
      modifies this
      ensures state == RESET
    {
      state := RESET;
    }

    method EvaluateGap(data: Track5MarketInput) returns (signal: Option<Track5Signal>)
      modifies this
      ensures (state, signal) == AfterGap(zThreshold, old(state), data)
    {
      if state.isActive { return None; }
      if data.previousClose <= 0.0 || data.activeVol < 0.0 { return None; }
      var gap := data.openPrice - data.previousClose;
      var dailyStd := DailyStdPoints(data.previousClose, data.activeVol);
      if dailyStd <= 0.0 { return None; }
      var zScore := gap / Max(0.1, dailyStd);
      if Abs(zScore) < EffectiveZThreshold(zThreshold, data.regime) || Abs(zScore) >= 4.0 { return None; }
      var stopDistance := StopDistance(dailyStd);
      var direction := if zScore > 0.0 then SHORT else LONG;
      var stop := if direction == SHORT then data.openPrice + stopDistance else data.openPrice - stopDistance;
      state := state.(
        isActive := true, direction := Some(direction), entryPrice := data.openPrice, targetPrice := data.previousClose,
        stopLossPrice := stop, openTicks := 0, peakPnl := 0.0, trailingActive := false, liquidityStage := 0,
        dailyStdPts := dailyStd);
      var confidence := if Abs(zScore) / 4.0 < 1.0 then Abs(zScore) / 4.0 else 1.0;
      return Some(Enter(direction, confidence, zScore, data.openPrice, data.previousClose, stop));
    }

    method EvaluateMeanReversion(price: real) returns (signal: Option<Track5Signal>)
      modifies this
      ensures (state, signal) == AfterPrice(old(state), price)
    {
      if !state.isActive || state.direction.None? { return None; }
      var direction := state.direction.value;
      var current := state.(openTicks := state.openTicks + 1);
      var pnl := if direction == SHORT then current.entryPrice - price else price - current.entryPrice;
      current := current.(peakPnl := Max(current.peakPnl, pnl));
      var trailThreshold := TrailThreshold(current.dailyStdPts);
      if AtTarget(current, direction, price) {
        Reset();
        return Some(Close(MEAN_REVERSION_TARGET, pnl));
      }
      if AtStop(current, direction, price) {
        Reset();
        return Some(Close(DYNAMIC_STOP, pnl));
      }
      if current.openTicks >= 30 {
        Reset();
        return Some(Close(TIMEOUT_15M, pnl));
      }
      current := current.(trailingActive := current.trailingActive || pnl >= trailThreshold);
      if current.trailingActive && current.peakPnl - pnl >= EffectiveReversal(current.dailyStdPts, pnl) {
        Reset();
        return Some(Close(TRAILING_LOCK, pnl));
      }
      if pnl >= trailThreshold * 0.75 && current.liquidityStage == 0 {
        state := current.(liquidityStage := 1);
        return Some(Liquidity(1, price, pnl));
      }
      if pnl >= trailThreshold * 1.5 && current.liquidityStage == 1 {
        state := current.(liquidityStage := 2);
        return Some(Liquidity(2, price, pnl));
      }
      state := current;
      return None;
    }

    method EvaluateInput(data: Track5MarketInput) returns (signal: Option<Track5Signal>)
      modifies this
      ensures (state, signal) == Evaluated(zThreshold, old(state), data)
    {
      if data.currentPrice.None? {
        signal := EvaluateGap(data);
      } else if state.isActive {
        signal := EvaluateMeanReversion(data.currentPrice.value);
      } else {
        signal := EvaluateGap(data);
      }
    }
  }

  // ----- the bracket -----

  /** Target and stop strictly on opposite sides of the entry, the target on the side that pays. */
  predicate Bracketed(state: Track5State) {
    && state.direction.Some?
    && (state.direction == Some(SHORT) ==> state.targetPrice < state.entryPrice < state.stopLossPrice)
    && (state.direction == Some(LONG) ==> state.stopLossPrice < state.entryPrice < state.targetPrice)
  }

  lemma QuotientSign(x: real, y: real)
    requires y > 0.0
    ensures x / y > 0.0 <==> x > 0.0
    ensures x / y < 0.0 <==> x < 0.0
  {
    var q := x / y;
    assert q * y == x;
  }

  lemma OpenedIsBracketed(state: Track5State, data: Track5MarketInput)
    ensures Bracketed(Opened(state, data)) <==> data.openPrice != data.previousClose
  {
    QuotientSign(data.openPrice - data.previousClose, Max(0.1, DailyStdPoints(data.previousClose, data.activeVol)));
  }

  /** An opening without a gap, in a regime that has no threshold of its own. */
  const NO_GAP := Track5MarketInput(100.0, 100.0, 1.0, "TREND", None)

  /**
    The threshold given to the strategy must be positive, and that is enough: exactly then every
    position it opens, on any input, is bracketed. Otherwise it opens one on no gap at all.
   */
  lemma BracketNeedsPositiveThreshold(zThreshold: real)
    ensures zThreshold > 0.0 <==>
              forall data :: AfterGap(zThreshold, RESET, data).1.Some? ==>
                Bracketed(AfterGap(zThreshold, RESET, data).0)
  {
    if zThreshold > 0.0 {
      forall data | AfterGap(zThreshold, RESET, data).1.Some?
        ensures Bracketed(AfterGap(zThreshold, RESET, data).0)
      {
        OpenedIsBracketed(RESET, data);
        assert ZScore(data) != 0.0;
      }
    } else {
      OpenedIsBracketed(RESET, NO_GAP);
      assert ZScore(NO_GAP) == 0.0;
      assert AfterGap(zThreshold, RESET, NO_GAP).1.Some?;
    }
  }

  // ----- runs -----

  ghost function Run(zThreshold: real, state: Track5State, inputs: seq<Track5MarketInput>): Track5State {
    if inputs == [] then state
    else Evaluated(zThreshold, Run(zThreshold, state, inputs[..|inputs| - 1]), inputs[|inputs| - 1]).0
  }

  /**
    An open position is bracketed, has seen fewer than thirty ticks, and its stop stands off by the
    stop distance; a closed one is as after a reset.
   */
  ghost predicate Sound(state: Track5State) {
    && (state.isActive ==>
          && Bracketed(state) && state.openTicks < 30 && 0 <= state.liquidityStage <= 2
          && Abs(state.stopLossPrice - state.entryPrice) == StopDistance(state.dailyStdPts))
    && (!state.isActive ==> state == RESET)
  }

  lemma EvaluationKeepsSound(zThreshold: real, state: Track5State, data: Track5MarketInput)
    requires zThreshold > 0.0 && Sound(state)
    ensures Sound(Evaluated(zThreshold, state, data).0)
  {
    if !state.isActive && Admits(zThreshold, data) {
      OpenedIsBracketed(state, data);
      assert ZScore(data) != 0.0;
    }
  }

  lemma {:induction false} RunsAreSound(zThreshold: real, state: Track5State, inputs: seq<Track5MarketInput>)
    requires zThreshold > 0.0 && Sound(state)
    ensures Sound(Run(zThreshold, state, inputs))
  {
    if inputs != [] {
      RunsAreSound(zThreshold, state, inputs[..|inputs| - 1]);
      EvaluationKeepsSound(zThreshold, Run(zThreshold, state, inputs[..|inputs| - 1]), inputs[|inputs| - 1]);
    }
  }

  function PriceTicks(inputs: seq<Track5MarketInput>): nat {
    if inputs == [] then 0
    else PriceTicks(inputs[..|inputs| - 1]) + if inputs[|inputs| - 1].currentPrice.Some? then 1 else 0
  }

  ghost predicate NeverCloses(zThreshold: real, state: Track5State, inputs: seq<Track5MarketInput>) {
    inputs == [] ||
    (var front, last := inputs[..|inputs| - 1], inputs[|inputs| - 1];
     var signal := Evaluated(zThreshold, Run(zThreshold, state, front), last).1;
     NeverCloses(zThreshold, state, front) && !(signal.Some? && signal.value.Close?))
  }

  /**
    An open position is closed by the thirtieth price tick after its entry: as long as no close is
    signalled, fewer have come, and the position is still the one that was opened.
   */
  lemma {:induction false} ClosedByThirtiethTick(zThreshold: real, state: Track5State, inputs: seq<Track5MarketInput>)
    requires Sound(state) && state.isActive && NeverCloses(zThreshold, state, inputs)
    ensures var after := Run(zThreshold, state, inputs);
            && after.isActive && after.direction.Some?
            && after.entryPrice == state.entryPrice && after.targetPrice == state.targetPrice
            && after.stopLossPrice == state.stopLossPrice
            && after.openTicks == state.openTicks + PriceTicks(inputs) < 30
  {
    if inputs != [] {
      ClosedByThirtiethTick(zThreshold, state, inputs[..|inputs| - 1]);
    }
  }

  // ----- one price tick, exactly -----

  /** What the position has won at this price. */
  function Won(state: Track5State, price: real): real {
    if state.direction == Some(SHORT) then state.entryPrice - price else price - state.entryPrice
  }

  /** Enough has been won to start trailing. */
  predicate StartsTrailing(state: Track5State, won: real, times: real) {
    won >= 0.3 * times && won >= 0.3 * state.dailyStdPts * times
  }

  /** So much has been given back from the peak that a trailing position ends: less is borne the more has been won. */
  predicate GivesBack(state: Track5State, won: real) {
    var unit := Max(0.1, state.dailyStdPts);
    var share := if won >= unit then 0.67 else if won >= 0.3 * unit then 0.80 else 1.0;
    var given := Max(state.peakPnl, won) - won;
    given >= 0.1 * share && given >= 0.1 * state.dailyStdPts * share
  }

  /** The reason by which a tick closes a position, if there is one: target, stop, time or trailing, in this order. */
  function TickVerdict(state: Track5State, won: real): Option<ExitReason> {
    if won >= Abs(state.targetPrice - state.entryPrice) then Some(MEAN_REVERSION_TARGET)
    else if won <= -1.0 && won <= -0.8 * state.dailyStdPts then Some(DYNAMIC_STOP)
    else if state.openTicks + 1 >= 30 then Some(TIMEOUT_15M)
    else if (state.trailingActive || StartsTrailing(state, won, 1.0)) && GivesBack(state, won) then Some(TRAILING_LOCK)
    else None
  }

  /** The stage in which liquidity is offered at this tick. */
  function OfferAt(state: Track5State, won: real): int {
    if state.liquidityStage == 0 && StartsTrailing(state, won, 0.75) then 1
    else if state.liquidityStage == 1 && StartsTrailing(state, won, 1.5) then 2
    else state.liquidityStage
  }

  /** The same position, one tick older. */
  ghost predicate OneTickOlder(before: Track5State, after: Track5State, won: real) {
    && after.isActive && after.direction == before.direction && after.entryPrice == before.entryPrice
    && after.targetPrice == before.targetPrice && after.stopLossPrice == before.stopLossPrice
    && after.dailyStdPts == before.dailyStdPts && after.openTicks == before.openTicks + 1
    && after.peakPnl >= before.peakPnl && after.peakPnl >= won
    && (after.peakPnl == before.peakPnl || after.peakPnl == won)
    && (after.trailingActive <==> before.trailingActive || StartsTrailing(before, won, 1.0))
  }

  lemma TickIsJudged(state: Track5State, price: real)
    requires Sound(state) && state.isActive
    ensures var direction := state.direction.value;
            var won := Pnl(state, direction, price);
            && won == Won(state, price)
            && ReasonToClose(Seen(state, won), direction, price, won) == TickVerdict(state, won)
  {
    var won := Won(state, price);
    var unit := Max(0.1, state.dailyStdPts);
    QuotientAtLeast(won, unit, 1.0);
    QuotientAtLeast(won, unit, 0.3);
    ReversalIsShare(state, won);
  }

  lemma ReversalIsShare(state: Track5State, won: real)
    ensures Max(state.peakPnl, won) - won >= EffectiveReversal(state.dailyStdPts, won) <==> GivesBack(state, won)
  {
    var unit := Max(0.1, state.dailyStdPts);
    QuotientAtLeast(won, unit, 1.0);
    QuotientAtLeast(won, unit, 0.3);
  }

  /**
    What a price tick does to an open position, exactly, in any state that a run reaches: it closes it under the
    first reason and leaves a reset strategy, or leaves it one tick older and offers liquidity in its stage.
   */
  lemma TickIsAnsweredExactly(state: Track5State, price: real)
    requires Sound(state) && state.isActive
    ensures var (after, signal) := AfterPrice(state, price);
            var won := Won(state, price);
            match TickVerdict(state, won)
            case Some(reason) => after == RESET && signal == Some(Close(reason, won))
            case None =>
              && OneTickOlder(state, after, won)
              && after.liquidityStage == OfferAt(state, won)
              && signal == (if after.liquidityStage == state.liquidityStage then None
                            else Some(Liquidity(after.liquidityStage, price, won)))
  {
    TickIsJudged(state, price);
  }

  // ----- one opening, exactly -----

  /** A daily deviation is the yearly one over the root of 252 trading days: 15% of the close, times the volatility. */
  lemma DailyDeviationIsYearly(previousClose: real, activeVol: real)
    ensures var root := 15.874507866;
            && -0.0000001 < root * root - 252.0 < 0.0000001
            && root * DailyStdPoints(previousClose, activeVol) == 0.15 * previousClose * activeVol
  {
  }

  /** The regimes that have a threshold of their own. */
  function ThresholdIn(regime: string, otherwise: real): real {
    if regime == "NORMAL" || regime == "NEUTRAL" then 1.1
    else if regime == "HIGH_VOL" || regime == "NOISE_CHOPPY" || regime == "CIRCUIT_BREAKER" then 1.8
    else otherwise
  }

  /** The gap is at least this many daily deviations, in either direction. */
  predicate GapIs(data: Track5MarketInput, factor: real) {
    Abs(data.openPrice - data.previousClose) >= factor * Max(0.1, DailyStdPoints(data.previousClose, data.activeVol))
  }

  lemma GapIsScore(data: Track5MarketInput, factor: real)
    ensures Abs(ZScore(data)) >= factor <==> GapIs(data, factor)
  {
    var gap, unit := data.openPrice - data.previousClose, Max(0.1, DailyStdPoints(data.previousClose, data.activeVol));
    QuotientSign(gap, unit);
    QuotientAtLeast(gap, unit, factor);
    QuotientAtLeast(-gap, unit, factor);
    assert (-gap) / unit == -(gap / unit) by {
      assert (gap / unit) * unit == gap;
      assert (-(gap / unit)) * unit == -gap;
    }
  }

  /** A position against the gap, back to the previous close, with its stop the other way. */
  ghost predicate OpensAgainst(data: Track5MarketInput, after: Track5State) {
    var std := DailyStdPoints(data.previousClose, data.activeVol);
    var up := data.openPrice > data.previousClose;
    && after.isActive && after.direction == Some(if up then SHORT else LONG)
    && after.entryPrice == data.openPrice && after.targetPrice == data.previousClose
    && after.stopLossPrice - after.entryPrice == (if up then Max(1.0, 0.8 * std) else -Max(1.0, 0.8 * std))
    && after.openTicks == 0 && after.peakPnl == 0.0 && !after.trailingActive && after.liquidityStage == 0
    && after.dailyStdPts == std
  }

  /**
    Which openings a strategy takes, exactly: none while it holds a position; otherwise those whose prices make
    sense and whose gap is at least the regime's threshold and less than four daily deviations.
   */
  lemma OpensExactly(zThreshold: real, state: Track5State, data: Track5MarketInput)
    ensures var (after, signal) := AfterGap(zThreshold, state, data);
            && (signal.Some? <==>
                  && !state.isActive && data.previousClose > 0.0 && data.activeVol >= 0.0
                  && DailyStdPoints(data.previousClose, data.activeVol) > 0.0
                  && GapIs(data, ThresholdIn(data.regime, zThreshold)) && !GapIs(data, 4.0))
            && (signal.None? ==> after == state)
            && (signal.Some? ==>
                  && OpensAgainst(data, after)
                  && signal.value.Enter? && Some(signal.value.direction) == after.direction
                  && signal.value.entry == after.entryPrice && signal.value.target == after.targetPrice
                  && signal.value.stop == after.stopLossPrice && signal.value.zScore == ZScore(data)
                  && 4.0 * signal.value.confidence == Abs(ZScore(data)))
  {
    GapIsScore(data, ThresholdIn(data.regime, zThreshold));
    GapIsScore(data, 4.0);
    QuotientSign(data.openPrice - data.previousClose, Max(0.1, DailyStdPoints(data.previousClose, data.activeVol)));
  }

  /** What a close has won or lost: the way to the target or more, the stop distance or more, or something between. */
  lemma ClosesMean(state: Track5State, price: real)
    requires Sound(state) && state.isActive
    requires AfterPrice(state, price).1.Some? && AfterPrice(state, price).1.value.Close?
    ensures var Close(reason, pnl) := AfterPrice(state, price).1.value;
            var toTarget, toStop := Abs(state.targetPrice - state.entryPrice), StopDistance(state.dailyStdPts);
            && pnl == Pnl(state, state.direction.value, price)
            && (reason == MEAN_REVERSION_TARGET <==> pnl >= toTarget)
            && (reason == DYNAMIC_STOP <==> pnl <= -toStop)
            && toTarget > 0.0 && toStop >= 1.0
            && (reason == TIMEOUT_15M ==> state.openTicks == 29)
            && (reason == TRAILING_LOCK ==> state.peakPnl > pnl)
  {
    if AfterPrice(state, price).1.value.reason == TRAILING_LOCK {
      ReversalIsPositive(state.dailyStdPts, AfterPrice(state, price).1.value.pnl);
    }
  }

  lemma ReversalIsPositive(dailyStd: real, pnl: real)
    ensures EffectiveReversal(dailyStd, pnl) > 0.0
  {
  }

  function Open(state: Track5State): int {
    if state.isActive then 1 else 0
  }

  /** Entries minus closes. */
  ghost function Balance(zThreshold: real, state: Track5State, inputs: seq<Track5MarketInput>): int {
    if inputs == [] then 0
    else
      var front, last := inputs[..|inputs| - 1], inputs[|inputs| - 1];
      var signal := Evaluated(zThreshold, Run(zThreshold, state, front), last).1;
      Balance(zThreshold, state, front)
      + (if signal.Some? && signal.value.Enter? then 1 else 0) - (if signal.Some? && signal.value.Close? then 1 else 0)
  }

  /** Every entry is closed by exactly one signal or still open: between two entries there is a close. */
  lemma {:induction false} EntriesAreClosedOnce(zThreshold: real, state: Track5State, inputs: seq<Track5MarketInput>)
    ensures Open(Run(zThreshold, state, inputs)) == Open(state) + Balance(zThreshold, state, inputs)
  {
    if inputs != [] {
      EntriesAreClosedOnce(zThreshold, state, inputs[..|inputs| - 1]);
      EvaluationBalances(zThreshold, Run(zThreshold, state, inputs[..|inputs| - 1]), inputs[|inputs| - 1]);
    }
  }

  lemma EvaluationBalances(zThreshold: real, state: Track5State, data: Track5MarketInput)
    ensures var (after, signal) := Evaluated(zThreshold, state, data);
            Open(after) == Open(state)
              + (if signal.Some? && signal.value.Enter? then 1 else 0)
              - (if signal.Some? && signal.value.Close? then 1 else 0)
  {
  }

  /** Liquidity is offered at most twice while a position is open, in stages. */
  lemma LiquidityComesInStages(zThreshold: real, state: Track5State, data: Track5MarketInput)
    requires Sound(state)
    ensures var (after, signal) := Evaluated(zThreshold, state, data);
            && (signal.Some? && signal.value.Liquidity? <==>
                  state.isActive && after.isActive && after.liquidityStage != state.liquidityStage)
            && (signal.Some? && signal.value.Liquidity? ==>
                  signal.value.stage == after.liquidityStage == state.liquidityStage + 1 <= 2)
  {
  }
}
