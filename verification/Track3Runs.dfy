/** What a Track3 run from a reset keeps: its groups, its holding time and its pauses. */
module Track3Runs {
  import opened Contracts
  import opened Decisions
  import opened Numbers
  import opened Track3

  ghost function Run(config: Config, state: Track3State, inputs: seq<Track3MarketInput>): Track3State {
    if inputs == [] then state
    else Evaluated(config, Run(config, state, inputs[..|inputs| - 1]), inputs[|inputs| - 1]).0
  }

  ghost function ResultAt(config: Config, state: Track3State, inputs: seq<Track3MarketInput>, i: nat): Track3Result
    requires i < |inputs|
  {
    Evaluated(config, Run(config, state, inputs[..i]), inputs[i]).1
  }

  lemma {:induction false} RunKeepsInvariant(config: Config, state: Track3State, inputs: seq<Track3MarketInput>)
    requires Invariant(config, state)
    ensures Invariant(config, Run(config, state, inputs))
  {
    if inputs != [] {
      RunKeepsInvariant(config, state, inputs[..|inputs| - 1]);
      EvaluationKeepsInvariant(config, Run(config, state, inputs[..|inputs| - 1]), inputs[|inputs| - 1]);
    }
  }

  /** From a reset on: a position exactly with a group id and two legs of that group, and never too old. */
  lemma ReachableGroups(config: Config, inputs: seq<Track3MarketInput>)
    ensures Invariant(config, Run(config, RESET, inputs))
  {
    RunKeepsInvariant(config, RESET, inputs);
  }

  // ----- group ids -----

  lemma EvaluationCountsEntries(config: Config, state: Track3State, data: Track3MarketInput)
    ensures var (after, result) := Evaluated(config, state, data);
            && after.groupSequence == state.groupSequence + (if result.status == ENTER then 1 else 0)
            && (result.status == ENTER ==>
                  result.signal.Some? && result.signal.value.groupId == Some(GroupId(data.date, after.groupSequence)))
  {
  }

  lemma {:induction false} SequenceNeverFalls(config: Config, state: Track3State, inputs: seq<Track3MarketInput>)
    ensures state.groupSequence <= Run(config, state, inputs).groupSequence
  {
    if inputs != [] {
      SequenceNeverFalls(config, state, inputs[..|inputs| - 1]);
      EvaluationCountsEntries(config, Run(config, state, inputs[..|inputs| - 1]), inputs[|inputs| - 1]);
    }
  }

  lemma {:induction false} RunSplits(config: Config, state: Track3State, first: seq<Track3MarketInput>,
                                     rest: seq<Track3MarketInput>)
    ensures Run(config, state, first + rest) == Run(config, Run(config, state, first), rest)
  {
    if rest == [] {
      assert first + rest == first;
    } else {
      RunSplits(config, state, first, rest[..|rest| - 1]);
      assert (first + rest)[..|first + rest| - 1] == first + rest[..|rest| - 1];
    }
  }

  /** An entry leaves a greater sequence number to everything that comes later. */
  lemma EntryRaisesSequence(config: Config, state: Track3State, inputs: seq<Track3MarketInput>, i: nat, j: nat)
    requires i < j <= |inputs| && ResultAt(config, state, inputs, i).status == ENTER
    ensures Run(config, state, inputs[..i]).groupSequence < Run(config, state, inputs[..j]).groupSequence
  {
    var after := Run(config, state, inputs[..i + 1]);
    EvaluationCountsEntries(config, Run(config, state, inputs[..i]), inputs[i]);
    assert inputs[..i + 1][..i] == inputs[..i];
    assert inputs[..j] == inputs[..i + 1] + inputs[i + 1..j];
    RunSplits(config, state, inputs[..i + 1], inputs[i + 1..j]);
    SequenceNeverFalls(config, after, inputs[i + 1..j]);
  }

  /** Between resets no two entries get the same group id, even across dates. */
  lemma GroupsAreNeverReused(config: Config, state: Track3State, inputs: seq<Track3MarketInput>, i: nat, j: nat)
    requires i < j < |inputs|
    requires ResultAt(config, state, inputs, i).status == ENTER && ResultAt(config, state, inputs, j).status == ENTER
    ensures var first, second := ResultAt(config, state, inputs, i).signal, ResultAt(config, state, inputs, j).signal;
            first.Some? && second.Some? && first.value.groupId.Some? && first.value.groupId != second.value.groupId
  {
    EntryRaisesSequence(config, state, inputs, i, j);
    var before, later := Run(config, state, inputs[..i]), Run(config, state, inputs[..j]);
    DifferentSequencesDiffer(config, before, inputs[i], later, inputs[j]);
  }

  lemma DifferentSequencesDiffer(config: Config, state: Track3State, data: Track3MarketInput,
                                 state': Track3State, data': Track3MarketInput)
    requires state.groupSequence != state'.groupSequence
    requires Evaluated(config, state, data).1.status == ENTER && Evaluated(config, state', data').1.status == ENTER
    ensures var first, second := Evaluated(config, state, data).1.signal, Evaluated(config, state', data').1.signal;
            first.Some? && second.Some? && first.value.groupId.Some? && first.value.groupId != second.value.groupId
  {
    EvaluationCountsEntries(config, state, data);
    EvaluationCountsEntries(config, state', data');
    if GroupId(data.date, state.groupSequence + 1) == GroupId(data'.date, state'.groupSequence + 1) {
      GroupIdsDiffer(data.date, state.groupSequence + 1, data'.date, state'.groupSequence + 1);
    }
  }

  // ----- holding -----

  ghost predicate SameDay(date: string, inputs: seq<Track3MarketInput>) {
    forall i :: 0 <= i < |inputs| ==> inputs[i].date == "" || inputs[i].date == date
  }

  function ValidCount(inputs: seq<Track3MarketInput>): nat {
    if inputs == [] then 0
    else ValidCount(inputs[..|inputs| - 1]) + if inputs[|inputs| - 1].valid then 1 else 0
  }

  /** On one day without a new entry: an open group has been open all along, and has counted every valid evaluation. */
  lemma {:induction false} HeldThroughout(config: Config, state: Track3State, inputs: seq<Track3MarketInput>)
    requires SameDay(state.currentDate, inputs)
    requires Run(config, state, inputs).groupSequence == state.groupSequence
    requires Run(config, state, inputs).activePosition.Some?
    ensures var after := Run(config, state, inputs);
            && state.activePosition == after.activePosition && after.currentDate == state.currentDate
            && after.holdingTicks == state.holdingTicks + ValidCount(inputs)
  {
    if inputs != [] {
      var front, last := inputs[..|inputs| - 1], inputs[|inputs| - 1];
      var before := Run(config, state, front);
      SequenceNeverFalls(config, state, front);
      DayStays(config, state, front);
      EvaluationCountsEntries(config, before, last);
      HeldThroughout(config, state, front);
    }
  }

  lemma {:induction false} DayStays(config: Config, state: Track3State, inputs: seq<Track3MarketInput>)
    requires SameDay(state.currentDate, inputs)
    ensures Run(config, state, inputs).currentDate == state.currentDate
  {
    if inputs != [] {
      DayStays(config, state, inputs[..|inputs| - 1]);
    }
  }

  /**
    A group that is open at two moments of one day has not seen the limit in between: it is closed by
    the `maxHoldingTicks`-th valid evaluation after its entry, by the first one if the limit is below 1.
   */
  lemma ClosedInTime(config: Config, state: Track3State, inputs: seq<Track3MarketInput>)
    requires Invariant(config, state) && SameDay(state.currentDate, inputs)
    requires state.activeGroupId.Some? && Run(config, state, inputs).activeGroupId == state.activeGroupId
    ensures ValidCount(inputs) > 0 ==> state.holdingTicks + ValidCount(inputs) < config.maxHoldingTicks
  {
    var after := Run(config, state, inputs);
    RunKeepsInvariant(config, state, inputs);
    var date :| state.activeGroupId.value == GroupId(date, state.groupSequence);
    var date' :| after.activeGroupId.value == GroupId(date', after.groupSequence);
    GroupIdsDiffer(date, state.groupSequence, date', after.groupSequence);
    HeldThroughout(config, state, inputs);
  }

  // ----- pauses -----

  /** On one day without an entry a flat strategy stays flat, counts its cooldown down, and remembers its last exit. */
  lemma {:induction false} FlatThroughout(config: Config, state: Track3State, inputs: seq<Track3MarketInput>)
    requires state.activePosition.None? && state.cooldownTicks >= 0 && SameDay(state.currentDate, inputs)
    requires Run(config, state, inputs).groupSequence == state.groupSequence
    ensures var after := Run(config, state, inputs);
            && after.activePosition.None? && after.currentDate == state.currentDate
            && after.lastExitZScore == state.lastExitZScore
            && after.cooldownTicks == (if |inputs| <= state.cooldownTicks then state.cooldownTicks - |inputs| else 0)
  {
    if inputs != [] {
      var front, last := inputs[..|inputs| - 1], inputs[|inputs| - 1];
      SequenceNeverFalls(config, state, front);
      EvaluationCountsEntries(config, Run(config, state, front), last);
      FlatThroughout(config, state, front);
    }
  }

  lemma CloseStartsPause(config: Config, state: Track3State, data: Track3MarketInput)
    requires Closes(Evaluated(config, state, data).1.status)
    ensures var (after, result) := Evaluated(config, state, data);
            && after.activePosition.None? && after.lastExitZScore == Some(data.zScore)
            && after.cooldownTicks == Cooldown(result.status)
  {
  }

  lemma EntryNeeds(config: Config, state: Track3State, data: Track3MarketInput)
    requires Evaluated(config, state, data).1.status == ENTER && !NewDay(state, data)
    ensures state.activePosition.None? && state.cooldownTicks <= 1
    ensures state.lastExitZScore.Some? ==> Abs(data.zScore - state.lastExitZScore.value) >= 0.8
  {
  }

  /**
    After a close, the next entry of the same day comes no earlier than the cooldown's number of
    calls later, and only once the z-score has moved by at least 0.8 from where the group was left.
   */
  lemma ReentryWaits(config: Config, state: Track3State, close: Track3MarketInput, pause: seq<Track3MarketInput>,
                     entry: Track3MarketInput)
    requires Closes(Evaluated(config, state, close).1.status)
    requires var closed := Evaluated(config, state, close).0;
             && SameDay(closed.currentDate, pause + [entry])
             && Run(config, closed, pause).groupSequence == closed.groupSequence
             && Evaluated(config, Run(config, closed, pause), entry).1.status == ENTER
    ensures |pause| + 1 >= Cooldown(Evaluated(config, state, close).1.status)
    ensures Abs(entry.zScore - close.zScore) >= 0.8
  {
    var closed := Evaluated(config, state, close).0;
    CloseStartsPause(config, state, close);
    assert forall i :: 0 <= i < |pause| ==> (pause + [entry])[i] == pause[i];
    assert (pause + [entry])[|pause|] == entry;
    FlatThroughout(config, closed, pause);
    EntryNeeds(config, Run(config, closed, pause), entry);
  }

  /** An entry is beyond its own stop exactly if its z-score is at least the stop threshold away, on either side. */
  lemma EntryBeyondStopExactly(config: Config, state: Track3State, entry: Track3MarketInput)
    requires Evaluated(config, state, entry).1.status == ENTER
    ensures Evaluated(config, state, entry).0.activePosition.Some?
    ensures StopsOut(config, Evaluated(config, state, entry).0.activePosition.value, entry.zScore)
            <==> Abs(entry.zScore) >= config.zStopLossThreshold
  {
    EntryIsJustified(config, state, entry);
  }

  /**
    Such a group does not survive: if the next valid evaluation of the day, before the market close and
    without a profit to lock, finds the z-score where it was, it stops the group out exactly if the
    entry was beyond the stop.
   */
  lemma UnmovedEntryIsStoppedExactly(config: Config, state: Track3State, entry: Track3MarketInput,
                                     next: Track3MarketInput)
    requires Evaluated(config, state, entry).1.status == ENTER
    requires var held := Evaluated(config, state, entry).0;
             && next.valid && next.zScore == entry.zScore && !NewDay(held, next)
             && !NotBefore(next.time, "15:15:00") && !LocksProfit(HighPnl(held, next), next)
    ensures Evaluated(config, Evaluated(config, state, entry).0, next).1.status == STOP_LOSS
            <==> Abs(entry.zScore) >= config.zStopLossThreshold
  {
    EntryBeyondStopExactly(config, state, entry);
    var held := Evaluated(config, state, entry).0;
    HeldIsJudged(config, held, next);
  }

  lemma HeldIsJudged(config: Config, held: Track3State, next: Track3MarketInput)
    requires held.activePosition.Some? && next.valid && !NewDay(held, next)
    requires !NotBefore(next.time, "15:15:00") && !LocksProfit(HighPnl(held, next), next)
    ensures Evaluated(config, held, next).1.status == STOP_LOSS
            <==> StopsOut(config, held.activePosition.value, next.zScore)
  {
  }

  /** A quiet market whose spread is `z` deviations out, each wide enough to pay for the round trip and `profit`. */
  function WideSpread(config: Config, z: real, profit: real): Track3MarketInput
    requires z > 0.0
  {
    var cost := 18500.0 + config.baseRoundTripCost + profit;
    Track3MarketInput(
      z, true, (Max(cost, 0.0) + 1.0) / (z * 200000.0), 0.0, 1.0, 1.0, 0.0, 0.0, 0.0, false, "10:00:00",
      false, false, false, 0.0, 0.0, 0.0, None, "")
  }

  /** Whatever the thresholds are, there is such an entry: nothing bounds the z-score of an entry from above. */
  lemma EntryBeyondStopIsPossible(config: Config) returns (entry: Track3MarketInput)
    ensures Evaluated(config, RESET, entry).1.status == ENTER
    ensures Abs(entry.zScore) >= config.zStopLossThreshold && entry.spreadDeviation > 0.0
  {
    var z := Max(Threshold(config, NORMAL, 1.0), config.zStopLossThreshold);
    ThresholdsAreHigh(config, NORMAL, 1.0);
    entry := WideSpread(config, z, config.minRequiredProfit);
    WideSpreadIsNormal(config, z, config.minRequiredProfit);
    WideSpreadPays(config, z, config.minRequiredProfit);
    assert EntryRefusal(config, Prepared(RESET, entry), entry).None?;
  }

  lemma WideSpreadIsNormal(config: Config, z: real, profit: real)
    requires z > 0.0
    ensures var data := WideSpread(config, z, profit);
            RegimeOf(data) == NORMAL && VolRatio(data) == 1.0 && EntryQty(NORMAL, data) == 1
            && !NotBefore(data.time, "15:00:00")
  {
    assert !StringLess("10:00:00", "09:05:00");
    assert StringLess("10:00:00", "15:00:00") by {
      assert "10:00:00"[1..][0] == '0' && "15:00:00"[1..][0] == '5';
    }
  }

  lemma WideSpreadPays(config: Config, z: real, profit: real)
    requires z > 0.0
    ensures var data := WideSpread(config, z, profit);
            && data.spreadDeviation > 0.0
            && GrossProfit(data, 1) - RoundTripCost(config, NORMAL, 1, data) >= profit
  {
    var data := WideSpread(config, z, profit);
    var cost := 18500.0 + config.baseRoundTripCost + profit;
    assert data.spreadDeviation * (z * 200000.0) == Max(cost, 0.0) + 1.0;
    assert GrossProfit(data, 1) == z * data.spreadDeviation * 200000.0;
    assert RoundTripCost(config, NORMAL, 1, data) == 18500.0 + config.baseRoundTripCost;
  }

  lemma LateIsLaterStill(time: string)
    requires NotBefore(time, "15:15:00")
    ensures NotBefore(time, "15:00:00")
  {
    assert StringLess("15:00:00", "15:15:00");
    StringLessIsStrictOrder(time, "15:00:00", "15:15:00");
  }

  /** From 15:15 on every valid evaluation leaves the strategy flat: an open group is closed and none is opened. */
  lemma FlatAfterMarketClose(config: Config, state: Track3State, data: Track3MarketInput)
    requires data.valid && NotBefore(data.time, "15:15:00")
    ensures Evaluated(config, state, data).0.activePosition.None?
    ensures state.activePosition.Some? && !NewDay(state, data) ==>
              Evaluated(config, state, data).1.status == MARKET_CLOSE_FLATTEN
  {
    LateIsLaterStill(data.time);
  }

  /** What every entry has behind it, in whatever regime: a dislocation on its own side, worth more than it costs. */
  lemma EntryIsJustified(config: Config, state: Track3State, data: Track3MarketInput)
    requires Evaluated(config, state, data).1.status == ENTER
    ensures var after := Evaluated(config, state, data).0;
            && after.activePosition.Some? && |after.legs| == 2
            && (after.activePosition == Some(SHORT_SPREAD) <==> data.zScore > 0.0)
            && Abs(data.zScore) >= 1.5
            && (RegimeOf(data) == HIGH_VOLATILITY ==> Abs(data.zScore) >= 2.2)
            && (RegimeOf(data) == GAP ==> Abs(data.zScore) >= 2.0 && data.marketStable && data.spreadNormalizing)
            && RegimeOf(data) != EXTREME_MOVE && StringLess(data.time, "15:00:00")
            && 1 <= after.legs[0].qty <= 2
            && (after.legs[0].qty == 2 ==> RegimeOf(data) == NORMAL && Abs(data.zScore) >= 2.5 && data.allowSizeUp)
            && GrossProfit(data, after.legs[0].qty) - RoundTripCost(config, RegimeOf(data), after.legs[0].qty, data)
               >= MinProfit(config, RegimeOf(data))
  {
    ThresholdsAreHigh(config, RegimeOf(data), VolRatio(data));
  }

  lemma ThresholdsAreHigh(config: Config, regime: Regime, volRatio: real)
    ensures Threshold(config, regime, volRatio) >= 1.5
    ensures regime == HIGH_VOLATILITY ==> Threshold(config, regime, volRatio) >= 2.2
    ensures regime == GAP ==> Threshold(config, regime, volRatio) >= 2.0
  {
  }

  // ----- the balance of entries and exits -----

  function Balance(state: Track3State): int {
    if state.activePosition.Some? then 1 else 0
  }

  /** Entries, minus closes, minus groups that a new date dropped without a signal. */
  ghost function Ledger(config: Config, state: Track3State, inputs: seq<Track3MarketInput>): int {
    if inputs == [] then 0
    else
      var front, last := inputs[..|inputs| - 1], inputs[|inputs| - 1];
      var before := Run(config, state, front);
      Ledger(config, state, front)
      + (if Evaluated(config, before, last).1.status == ENTER then 1 else 0)
      - (if Closes(Evaluated(config, before, last).1.status) then 1 else 0)
      - (if NewDay(before, last) then Balance(before) else 0)
  }

  /** Every entry is closed once, is dropped by a change of date, or is still open; only the date drops silently. */
  lemma {:induction false} EntriesAreAccountedFor(config: Config, state: Track3State, inputs: seq<Track3MarketInput>)
    ensures Balance(Run(config, state, inputs)) == Balance(state) + Ledger(config, state, inputs)
  {
    if inputs != [] {
      EntriesAreAccountedFor(config, state, inputs[..|inputs| - 1]);
      EvaluationBalances(config, Run(config, state, inputs[..|inputs| - 1]), inputs[|inputs| - 1]);
    }
  }

  lemma EvaluationBalances(config: Config, state: Track3State, data: Track3MarketInput)
    ensures var (after, result) := Evaluated(config, state, data);
            Balance(after) == Balance(state)
              + (if result.status == ENTER then 1 else 0) - (if Closes(result.status) then 1 else 0)
              - (if NewDay(state, data) then Balance(state) else 0)
  {
  }
}
