/** From the strategies' signals of one tick to order commands with their own ids. */
module DecisionPipeline {
  import opened Contracts
  import opened Decisions
  import opened RuntimeIdentity

  datatype PipelineError =
    | RUNTIME_SOURCE_SEQUENCE_REQUIRED
    | RUNTIME_TRACK_ID_REQUIRED
    | RUNTIME_DUPLICATE_SIGNAL_ID
    | EXECUTION_PROPOSAL_REQUIRED
    | QTY_REQUIRED
    | OPTION_IDENTITY_REQUIRED
    | OPTION_IDENTITY_INCOMPLETE
    | OPTION_TYPE_IDENTITY_MISMATCH
    | STRIKE_IDENTITY_MISMATCH
    | RUNTIME_APPROVED_SIGNAL_CONTEXT_REQUIRED
    | RUNTIME_TRACK_ID_CONTEXT_MISMATCH
    | CLIENT_ORDER_ID_REQUIRED
    | OPTION_SYMBOL_REQUIRED
    | OPTION_EXPIRY_REQUIRED
    | OPTION_TYPE_REQUIRED

  datatype Proposal = Proposal(
    quantity: int, assetType: AssetType, side: OrderSide,
    optionType: Option<OptionType>, strike: Option<real>, tagId: string)

  datatype OptionIdentity = OptionIdentity(
    instrumentId: string, symbol: string, expiry: string, optionType: Option<OptionType>, strike: Option<real>)

  /** What a strategy proposes; the identity is the one resolved for it, if any. */
  datatype Signal = Signal(proposal: Option<Proposal>, identity: Option<OptionIdentity>, reason: string)

  datatype Evaluation = Evaluation(
    strategyId: string, result: Signal, localSequence: int, runtimeContext: RuntimeExecutionContext)

  // ----- collection -----

  /** Numbers the signals of one context in one tick from 1. */
  function Collect(tick: int, strategyId: string, signals: seq<Signal>): Result<seq<Evaluation>, PipelineError> {
    if tick <= 0 then Err(RUNTIME_SOURCE_SEQUENCE_REQUIRED)
    else Ok(seq(|signals|, i requires 0 <= i < |signals| =>
      Evaluation(strategyId, signals[i], i + 1, RuntimeExecutionContext(tick, i + 1))))
  }

  // ----- canonical signals -----

  function SignalToCanonical(signal: Signal, signalId: string, trackId: string, price: real, timestamp: string)
    : Result<StrategySignal, PipelineError>
  {
    if signal.proposal.None? then Err(EXECUTION_PROPOSAL_REQUIRED)
    else
      var proposal := signal.proposal.value;
      if proposal.quantity <= 0 then Err(QTY_REQUIRED)
      else if proposal.assetType == FUTURES then
        Ok(StrategySignal(signalId, trackId, FUTURES, proposal.side, proposal.quantity, price,
                          None, 0.0, proposal.tagId, signal.reason, timestamp, "", ""))
      else if signal.identity.None? then Err(OPTION_IDENTITY_REQUIRED)
      else
        var identity := signal.identity.value;
        if identity.instrumentId == "" || identity.symbol == "" || identity.expiry == "" ||
           identity.optionType.None? || identity.strike.None? then Err(OPTION_IDENTITY_INCOMPLETE)
        else if proposal.optionType.Some? && proposal.optionType != identity.optionType then
          Err(OPTION_TYPE_IDENTITY_MISMATCH)
        else if proposal.strike.Some? && proposal.strike != identity.strike then Err(STRIKE_IDENTITY_MISMATCH)
        else Ok(StrategySignal(signalId, trackId, OPTION, proposal.side, proposal.quantity, price,
                               identity.optionType, identity.strike.value, proposal.tagId, signal.reason, timestamp,
                               identity.symbol, identity.expiry))
  }

  function Track(evaluation: Evaluation): string {
    Strip(evaluation.strategyId)
  }

  function IdOf(evaluation: Evaluation): Id {
    SignalId(evaluation.runtimeContext, Track(evaluation))
  }

  function OrderIdOf(evaluation: Evaluation): Id {
    ClientOrderId(evaluation.runtimeContext, Track(evaluation))
  }

  /** Signal id and client order id both stand for the same thing: context and track. */
  lemma IdsOfEvaluations(a: Evaluation, b: Evaluation)
    ensures IdOf(a).Id? <==> Track(a) != ""
    ensures OrderIdOf(a).Id? <==> Track(a) != ""
    ensures Track(a) != "" && Track(b) != "" ==>
              (IdOf(a) == IdOf(b) <==> a.runtimeContext == b.runtimeContext && Track(a) == Track(b))
    ensures Track(a) != "" && Track(b) != "" ==>
              (OrderIdOf(a) == OrderIdOf(b) <==> a.runtimeContext == b.runtimeContext && Track(a) == Track(b))
  {
    StripIsIdempotent(a.strategyId);
    StripIsIdempotent(b.strategyId);
    if Track(a) != "" && Track(b) != "" {
      IdsAreInjective(a.runtimeContext, Track(a), b.runtimeContext, Track(b));
    }
  }

  ghost predicate DistinctEvaluations(evaluations: seq<Evaluation>) {
    forall i, j :: 0 <= i < j < |evaluations| ==> IdOf(evaluations[i]) != IdOf(evaluations[j])
  }

  ghost predicate AllTracked(evaluations: seq<Evaluation>) {
    forall i :: 0 <= i < |evaluations| ==> Track(evaluations[i]) != ""
  }

  predicate Convertible(evaluation: Evaluation, price: real, timestamp: string) {
    && IdOf(evaluation).Id?
    && SignalToCanonical(evaluation.result, IdOf(evaluation).text, Track(evaluation), price, timestamp).Ok?
  }

  ghost predicate AllConvertible(evaluations: seq<Evaluation>, price: real, timestamp: string) {
    forall i :: 0 <= i < |evaluations| ==> Convertible(evaluations[i], price, timestamp)
  }

  class RuntimeStrategyToDecisionAdapter {
    const arbiter: DecisionArbiter

    constructor (arbiter: DecisionArbiter)
      ensures this.arbiter == arbiter
    {
      this.arbiter := arbiter;
    }

    /** Refuses blank tracks, unusable proposals and repeated signal ids, and nothing else. */
    method Arbitrate(evaluations: seq<Evaluation>, price: real, timestamp: string)
      returns (r: Result<(seq<StrategySignal>, Arbitration), PipelineError>)
      ensures r.Ok? <==> AllConvertible(evaluations, price, timestamp) && DistinctEvaluations(evaluations)
      ensures r.Ok? ==> Canonical(evaluations, r.value.0, price, timestamp)
      ensures r.Ok? ==> r.value.1 == AfterSignals(Sorted(r.value.0)).result
    {
      var canonical: seq<StrategySignal> := [];
      var seen: set<Id> := {};
      for i := 0 to |evaluations|
        invariant Canonical(evaluations[..i], canonical, price, timestamp)
        invariant forall j :: 0 <= j < i ==> Convertible(evaluations[j], price, timestamp)
        invariant forall id :: id in seen <==> exists j :: 0 <= j < i && id == IdOf(evaluations[j])
      {
        var evaluation := evaluations[i];
        var track := Strip(evaluation.strategyId);
        IdsOfEvaluations(evaluation, evaluation);
        if track == "" {
          return Err(RUNTIME_TRACK_ID_REQUIRED);
        }
        var id := SignalId(evaluation.runtimeContext, track);
        if id in seen {
          return Err(RUNTIME_DUPLICATE_SIGNAL_ID);
        }
        seen := seen + {id};
        var converted := SignalToCanonical(evaluation.result, id.text, track, price, timestamp);
        if converted.Err? {
          return Err(converted.error);
        }
        ExtendCanonical(evaluations, i, canonical, converted.value, price, timestamp);
        canonical := canonical + [converted.value];
      }
      assert evaluations[..|evaluations|] == evaluations;
      CanonicalEvaluationsDiffer(evaluations, canonical, price, timestamp);
      var arbitration := arbiter.Arbitrate(canonical);
      return Ok((canonical, arbitration));
    }
  }

  ghost predicate CanonicalAt(
    evaluations: seq<Evaluation>, signals: seq<StrategySignal>, i: nat, price: real, timestamp: string)
    requires i < |evaluations| && i < |signals|
  {
    var evaluation := evaluations[i];
    && Track(evaluation) != ""
    && IdOf(evaluation) == Id(signals[i].signalId)
    && SignalToCanonical(evaluation.result, signals[i].signalId, Track(evaluation), price, timestamp) == Ok(signals[i])
  }

  /** The canonical signals of the evaluations: one each, in order, with distinct ids. */
  ghost predicate Canonical(evaluations: seq<Evaluation>, signals: seq<StrategySignal>, price: real, timestamp: string)
  {
    && |signals| == |evaluations|
    && (forall i :: 0 <= i < |evaluations| ==> CanonicalAt(evaluations, signals, i, price, timestamp))
    && DistinctIds(signals)
  }

  lemma ExtendCanonical(evaluations: seq<Evaluation>, i: nat, signals: seq<StrategySignal>, next: StrategySignal,
                        price: real, timestamp: string)
    requires i < |evaluations|
    requires Canonical(evaluations[..i], signals, price, timestamp)
    requires CanonicalAt(evaluations, signals + [next], i, price, timestamp)
    requires forall j :: 0 <= j < i ==> IdOf(evaluations[j]) != Id(next.signalId)
    ensures Canonical(evaluations[..i + 1], signals + [next], price, timestamp)
  {
    var front, all := evaluations[..i], evaluations[..i + 1];
    forall j | 0 <= j < i + 1
      ensures CanonicalAt(all, signals + [next], j, price, timestamp)
    {
      if j < i {
        assert CanonicalAt(front, signals, j, price, timestamp);
      }
    }
    forall j | 0 <= j < i
      ensures signals[j].signalId != next.signalId
    {
      assert CanonicalAt(front, signals, j, price, timestamp);
      assert IdOf(evaluations[j]) == Id(signals[j].signalId);
    }
  }

  lemma CanonicalEvaluationsDiffer(
    evaluations: seq<Evaluation>, signals: seq<StrategySignal>, price: real, timestamp: string)
    requires Canonical(evaluations, signals, price, timestamp)
    ensures DistinctEvaluations(evaluations) && AllTracked(evaluations)
  {
    forall i | 0 <= i < |evaluations|
      ensures Track(evaluations[i]) != "" && IdOf(evaluations[i]) == Id(signals[i].signalId)
    {
      assert CanonicalAt(evaluations, signals, i, price, timestamp);
    }
  }

  // ----- commands -----

  /** The part that a signal lacks, if any; blank text counts as none here, only empty text in `SignalToCanonical`. */
  function MissingPart(signal: StrategySignal): Option<PipelineError> {
    if signal.qty <= 0 then Some(QTY_REQUIRED)
    else if Strip(signal.trackId) == "" then Some(RUNTIME_TRACK_ID_REQUIRED)
    else if signal.assetType == OPTION && Strip(signal.symbol) == "" then Some(OPTION_SYMBOL_REQUIRED)
    else if signal.assetType == OPTION && Strip(signal.expiry) == "" then Some(OPTION_EXPIRY_REQUIRED)
    else if signal.assetType == OPTION && signal.optionType.None? then Some(OPTION_TYPE_REQUIRED)
    else None
  }

  /** The client order id is stripped; the signal's fields are carried over as they are. */
  function ApprovedSignalToCommand(signal: StrategySignal, clientOrderId: string): Result<OrderCommand, PipelineError> {
    if Strip(clientOrderId) == "" then Err(PipelineError.CLIENT_ORDER_ID_REQUIRED)
    else if MissingPart(signal).Some? then Err(MissingPart(signal).value)
    else Ok(OrderCommand(Strip(clientOrderId), signal.trackId, signal.assetType, signal.side, signal.qty, signal.price,
                         signal.optionType, signal.strike, signal.symbol, signal.expiry, signal.tagId))
  }

  /** A command carries its signal's fields under the client order id of the signal's own evaluation. */
  ghost predicate CommandFor(evaluations: seq<Evaluation>, signal: StrategySignal, command: OrderCommand)
  {
    exists i :: 0 <= i < |evaluations| && CommandFrom(evaluations[i], signal, command)
  }

  ghost predicate CommandFrom(evaluation: Evaluation, signal: StrategySignal, command: OrderCommand)
  {
    && Track(evaluation) == signal.trackId != ""
    && IdOf(evaluation) == Id(signal.signalId)
    && OrderIdOf(evaluation) == Id(command.clientOrderId)
    && ApprovedSignalToCommand(signal, command.clientOrderId) == Ok(command)
  }

  class RuntimeDecisionCommandAdapter {
    constructor () {
    }

    method BuildCommands(evaluations: seq<Evaluation>, approved: seq<StrategySignal>)
      returns (r: Result<seq<OrderCommand>, PipelineError>)
      ensures r.Ok? <==>
                AllTracked(evaluations) && DistinctEvaluations(evaluations) && AllBuildable(evaluations, approved)
      ensures r.Ok? ==> Commands(evaluations, approved, r.value)
    {
      var contexts: map<string, Evaluation> := map[];
      for i := 0 to |evaluations|
        invariant AllTracked(evaluations[..i]) && DistinctEvaluations(evaluations[..i])
        invariant Indexes(contexts, evaluations[..i])
      {
        var evaluation := evaluations[i];
        var track := Strip(evaluation.strategyId);
        if track == "" { return Err(RUNTIME_TRACK_ID_REQUIRED); }
        IdsOfEvaluations(evaluation, evaluation);
        var id := SignalId(evaluation.runtimeContext, track);
        IndexTellsDuplicates(contexts, evaluations, i);
        if id.text in contexts { return Err(RUNTIME_DUPLICATE_SIGNAL_ID); }
        IndexExtends(contexts, evaluations, i);
        contexts := contexts[id.text := evaluation];
      }
      assert evaluations[..|evaluations|] == evaluations;
      var commands: seq<OrderCommand> := [];
      for k := 0 to |approved|
        invariant AllBuildable(evaluations, approved[..k])
        invariant Commands(evaluations, approved[..k], commands)
      {
        var signal := approved[k];
        IndexTellsBuildable(contexts, evaluations, signal);
        if signal.signalId !in contexts { return Err(RUNTIME_APPROVED_SIGNAL_CONTEXT_REQUIRED); }
        var evaluation := contexts[signal.signalId];
        var track := Strip(evaluation.strategyId);
        if track != signal.trackId { return Err(RUNTIME_TRACK_ID_CONTEXT_MISMATCH); }
        IdsOfEvaluations(evaluation, evaluation);
        StripIsIdempotent(evaluation.strategyId);
        ClientOrderIdsAreStripped(evaluation.runtimeContext, track);
        var clientOrderId := ClientOrderId(evaluation.runtimeContext, track);
        var command := ApprovedSignalToCommand(signal, clientOrderId.text);
        if command.Err? { return Err(command.error); }
        assert CommandFor(evaluations, signal, command.value);
        OneMoreCommand(evaluations, approved, k, commands, command.value);
        commands := commands + [command.value];
      }
      assert approved[..|approved|] == approved;
      return Ok(commands);
    }
  }

  ghost predicate Commands(evaluations: seq<Evaluation>, approved: seq<StrategySignal>, commands: seq<OrderCommand>) {
    && |commands| == |approved|
    && (forall k :: 0 <= k < |approved| ==> CommandFor(evaluations, approved[k], commands[k]))
  }

  ghost predicate AllBuildable(evaluations: seq<Evaluation>, approved: seq<StrategySignal>) {
    forall k :: 0 <= k < |approved| ==> Buildable(evaluations, approved[k])
  }

  lemma OneMoreCommand(
    evaluations: seq<Evaluation>, approved: seq<StrategySignal>, k: nat, commands: seq<OrderCommand>,
    next: OrderCommand)
    requires k < |approved|
    requires AllBuildable(evaluations, approved[..k]) && Commands(evaluations, approved[..k], commands)
    requires Buildable(evaluations, approved[k]) && CommandFor(evaluations, approved[k], next)
    ensures AllBuildable(evaluations, approved[..k + 1])
    ensures Commands(evaluations, approved[..k + 1], commands + [next])
  {
    assert approved[..k + 1] == approved[..k] + [approved[k]];
  }

  /** The dictionary of the first loop: the evaluations, each under its own signal id. */
  ghost predicate Indexes(contexts: map<string, Evaluation>, evaluations: seq<Evaluation>) {
    && (forall id :: id in contexts ==> contexts[id] in evaluations && IdOf(contexts[id]) == Id(id))
    && (forall j :: 0 <= j < |evaluations| ==>
          IdOf(evaluations[j]).Id? && IdOf(evaluations[j]).text in contexts)
  }

  lemma IndexTellsDuplicates(contexts: map<string, Evaluation>, evaluations: seq<Evaluation>, i: nat)
    requires i < |evaluations| && Track(evaluations[i]) != ""
    requires DistinctEvaluations(evaluations[..i]) && Indexes(contexts, evaluations[..i])
    ensures var id := IdOf(evaluations[i]);
            && id.Id?
            && (id.text in contexts ==> !DistinctEvaluations(evaluations))
            && (id.text !in contexts ==> DistinctEvaluations(evaluations[..i + 1]))
  {
    var front, id := evaluations[..i], IdOf(evaluations[i]);
    IdsOfEvaluations(evaluations[i], evaluations[i]);
    if id.text in contexts {
      var j :| 0 <= j < i && front[j] == contexts[id.text];
      assert IdOf(evaluations[j]) == IdOf(evaluations[i]);
    } else {
      forall j | 0 <= j < i
        ensures IdOf(evaluations[j]) != id
      {
        assert IdOf(front[j]).text in contexts;
      }
      OneMoreDistinct(evaluations, i);
    }
  }

  lemma OneMoreDistinct(evaluations: seq<Evaluation>, i: nat)
    requires i < |evaluations| && DistinctEvaluations(evaluations[..i])
    requires forall j :: 0 <= j < i ==> IdOf(evaluations[j]) != IdOf(evaluations[i])
    ensures DistinctEvaluations(evaluations[..i + 1])
  {
    var front, all := evaluations[..i], evaluations[..i + 1];
    forall j, k | 0 <= j < k < |all|
      ensures IdOf(all[j]) != IdOf(all[k])
    {
      assert k < i ==> IdOf(front[j]) != IdOf(front[k]);
    }
  }

  lemma IndexExtends(contexts: map<string, Evaluation>, evaluations: seq<Evaluation>, i: nat)
    requires i < |evaluations| && IdOf(evaluations[i]).Id?
    requires Indexes(contexts, evaluations[..i])
    ensures Indexes(contexts[IdOf(evaluations[i]).text := evaluations[i]], evaluations[..i + 1])
  {
    assert evaluations[..i + 1] == evaluations[..i] + [evaluations[i]];
  }

  lemma IndexTellsBuildable(contexts: map<string, Evaluation>, evaluations: seq<Evaluation>, signal: StrategySignal)
    requires AllTracked(evaluations) && Indexes(contexts, evaluations)
    ensures Buildable(evaluations, signal) <==>
              && signal.signalId in contexts && Track(contexts[signal.signalId]) == signal.trackId
              && MissingPart(signal).None?
  {
    if signal.signalId in contexts {
      var i :| 0 <= i < |evaluations| && evaluations[i] == contexts[signal.signalId];
      if Track(evaluations[i]) == signal.trackId {
        assert StandsFor(evaluations[i], signal);
      } else {
        OneEvaluationPerId(evaluations, i, signal);
      }
    } else {
      forall j | 0 <= j < |evaluations|
        ensures !StandsFor(evaluations[j], signal)
      {
        assert IdOf(evaluations[j]).text in contexts;
      }
    }
  }

  /** A signal that some evaluation stands for, and that is complete enough to become a command. */
  ghost predicate Buildable(evaluations: seq<Evaluation>, signal: StrategySignal)
  {
    && (exists i :: 0 <= i < |evaluations| && StandsFor(evaluations[i], signal))
    && MissingPart(signal).None?
  }

  ghost predicate StandsFor(evaluation: Evaluation, signal: StrategySignal)
  {
    Track(evaluation) == signal.trackId != "" && IdOf(evaluation) == Id(signal.signalId)
  }

  lemma OneEvaluationPerId(evaluations: seq<Evaluation>, i: nat, signal: StrategySignal)
    requires i < |evaluations|
    requires AllTracked(evaluations)
    requires IdOf(evaluations[i]) == Id(signal.signalId) && Track(evaluations[i]) != signal.trackId
    ensures !Buildable(evaluations, signal)
  {
    forall j | 0 <= j < |evaluations|
      ensures !StandsFor(evaluations[j], signal)
    {
      if IdOf(evaluations[j]) == Id(signal.signalId) {
        IdsOfEvaluations(evaluations[i], evaluations[j]);
      }
    }
  }

  /** Distinct approved signals get distinct client order ids. */
  lemma CommandsHaveDistinctIds(
    evaluations: seq<Evaluation>, approved: seq<StrategySignal>, commands: seq<OrderCommand>)
    requires DistinctIds(approved) && Commands(evaluations, approved, commands)
    ensures forall k, l :: 0 <= k < l < |commands| ==> commands[k].clientOrderId != commands[l].clientOrderId
  {
    forall k, l | 0 <= k < l < |commands|
      ensures commands[k].clientOrderId != commands[l].clientOrderId
    {
      var i :| 0 <= i < |evaluations| && CommandFrom(evaluations[i], approved[k], commands[k]);
      var j :| 0 <= j < |evaluations| && CommandFrom(evaluations[j], approved[l], commands[l]);
      IdsOfEvaluations(evaluations[i], evaluations[j]);
    }
  }

  /** What a strategy proposes is what is ordered: nothing is changed between the proposal and the command. */
  lemma CommandCarriesProposal(
    result: Signal, signalId: string, trackId: string, price: real, timestamp: string, clientOrderId: string)
    requires SignalToCanonical(result, signalId, trackId, price, timestamp).Ok?
    requires ApprovedSignalToCommand(
               SignalToCanonical(result, signalId, trackId, price, timestamp).value, clientOrderId).Ok?
    ensures var signal := SignalToCanonical(result, signalId, trackId, price, timestamp).value;
            var command := ApprovedSignalToCommand(signal, clientOrderId).value;
            && result.proposal.Some?
            && var proposal := result.proposal.value;
               && command.side == proposal.side && command.qty == proposal.quantity > 0
               && command.assetType == proposal.assetType && command.tagId == proposal.tagId
               && command.trackId == trackId && command.price == price && command.clientOrderId == Strip(clientOrderId)
               && (proposal.assetType == OPTION ==> CarriesIdentity(command, proposal, result.identity))
               && (proposal.assetType == FUTURES ==>
                     command.symbol == command.expiry == "" && command.optionType.None? && command.strike == 0.0)
  {
  }

  /** The command names the resolved option, and the proposal did not ask for another one. */
  predicate CarriesIdentity(command: OrderCommand, proposal: Proposal, identity: Option<OptionIdentity>) {
    && identity.Some? && identity.value.optionType.Some? && identity.value.strike.Some?
    && command.symbol == identity.value.symbol && Strip(command.symbol) != ""
    && command.expiry == identity.value.expiry && Strip(command.expiry) != ""
    && command.optionType == identity.value.optionType && command.strike == identity.value.strike.value
    && (proposal.optionType.Some? ==> proposal.optionType == command.optionType)
    && (proposal.strike.Some? ==> proposal.strike.value == command.strike)
  }

  /** The evaluations collected for one context in one tick have distinct signal ids. */
  lemma CollectedIdsAreDistinct(tick: int, strategyId: string, signals: seq<Signal>, i: nat, j: nat)
    requires tick > 0 && Strip(strategyId) != "" && i < j < |signals|
    ensures var evaluations := Collect(tick, strategyId, signals).value;
            && IdOf(evaluations[i]) != IdOf(evaluations[j])
  {
    var evaluations := Collect(tick, strategyId, signals).value;
    IdsOfEvaluations(evaluations[i], evaluations[j]);
  }

  /** One evaluation for each signal, in order, numbered from 1 within its tick. */
  lemma CollectedInOrder(tick: int, strategyId: string, signals: seq<Signal>)
    ensures Collect(tick, strategyId, signals).Ok? <==> tick > 0
    ensures tick > 0 ==>
              var evaluations := Collect(tick, strategyId, signals).value;
              && |evaluations| == |signals|
              && forall i :: 0 <= i < |signals| ==>
                   && evaluations[i].strategyId == strategyId && evaluations[i].result == signals[i]
                   && evaluations[i].localSequence == evaluations[i].runtimeContext.localSequence == i + 1
                   && evaluations[i].runtimeContext.tickSequence == tick
  {
  }

  // ----- what is converted -----

  /** A resolved option with nothing missing, which is the one that was proposed as far as that was said. */
  predicate Resolves(identity: OptionIdentity, proposal: Proposal) {
    && "" !in {identity.instrumentId, identity.symbol, identity.expiry}
    && identity.optionType.Some? && identity.strike.Some?
    && proposal.optionType in {None, identity.optionType} && proposal.strike in {None, identity.strike}
  }

  /** A proposal of some quantity, of futures or of an option that has been resolved. */
  predicate WellProposed(result: Signal) {
    && result.proposal.Some? && result.proposal.value.quantity > 0
    && (result.proposal.value.assetType == OPTION ==>
          result.identity.Some? && Resolves(result.identity.value, result.proposal.value))
  }

  /** The first conversion takes exactly the well proposed signals, and gives each the names and values it was given. */
  lemma ConversionIsExact(result: Signal, signalId: string, trackId: string, price: real, timestamp: string)
    ensures var r := SignalToCanonical(result, signalId, trackId, price, timestamp);
            && (r.Ok? <==> WellProposed(result))
            && (r.Ok? ==>
                  && r.value.signalId == signalId && r.value.trackId == trackId
                  && r.value.reason == result.reason && r.value.timestamp == timestamp && r.value.price == price)
  {
  }

  /** The second takes exactly what has an id, a track and a quantity and, if it is an option, says which. */
  lemma CommandIsBuiltExactly(signal: StrategySignal, clientOrderId: string)
    ensures ApprovedSignalToCommand(signal, clientOrderId).Ok? <==>
              && Strip(clientOrderId) != "" && Strip(signal.trackId) != "" && signal.qty > 0
              && NamesItsOption(signal) && (signal.assetType == OPTION ==> signal.optionType.Some?)
  {
  }

  /** Two evaluations of one tick, track and ordinal. */
  predicate SameSource(a: Evaluation, b: Evaluation) {
    a.runtimeContext == b.runtimeContext && Strip(a.strategyId) == Strip(b.strategyId)
  }

  /** A tick's evaluations that can be arbitrated, said of the evaluations alone. */
  ghost predicate Arbitrable(evaluations: seq<Evaluation>) {
    && (forall i :: 0 <= i < |evaluations| ==>
          Strip(evaluations[i].strategyId) != "" && WellProposed(evaluations[i].result))
    && (forall i, j :: 0 <= i < j < |evaluations| ==> !SameSource(evaluations[i], evaluations[j]))
  }

  /**
    What arbitration accepts of a tick, from its evaluations alone: every one has a track and is well proposed, and
    no two come from the same tick, track and ordinal.
   */
  lemma TickIsAcceptedExactly(evaluations: seq<Evaluation>, price: real, timestamp: string)
    ensures AllConvertible(evaluations, price, timestamp) && DistinctEvaluations(evaluations)
            <==> Arbitrable(evaluations)
  {
    forall i | 0 <= i < |evaluations|
      ensures Convertible(evaluations[i], price, timestamp) <==>
                Strip(evaluations[i].strategyId) != "" && WellProposed(evaluations[i].result)
    {
      IdsOfEvaluations(evaluations[i], evaluations[i]);
      if IdOf(evaluations[i]).Id? {
        ConversionIsExact(evaluations[i].result, IdOf(evaluations[i]).text, Track(evaluations[i]), price, timestamp);
      }
    }
    forall i, j | 0 <= i < j < |evaluations| && Track(evaluations[i]) != "" && Track(evaluations[j]) != ""
      ensures IdOf(evaluations[i]) == IdOf(evaluations[j]) <==> SameSource(evaluations[i], evaluations[j])
    {
      IdsOfEvaluations(evaluations[i], evaluations[j]);
    }
  }

  /** What the second adapter asks of an option and the first does not: a symbol and an expiry that are not blank. */
  predicate NamesItsOption(signal: StrategySignal) {
    signal.assetType == OPTION ==> Strip(signal.symbol) != "" && Strip(signal.expiry) != ""
  }

  /**
    From one tick's evaluations to commands. Whatever the first adapter lets through has sound tracks and ids,
    and its approved signals are distinct; so the second adapter builds a command for each of them if and only
    if no approved option has a blank symbol or expiry. Otherwise it builds none at all.
   */
  lemma ApprovedSignalsAreBuildable(
    evaluations: seq<Evaluation>, signals: seq<StrategySignal>, price: real, timestamp: string)
    requires Canonical(evaluations, signals, price, timestamp)
    ensures var approved := AfterSignals(Sorted(signals)).result.approved;
            && DistinctIds(approved)
            && AllTracked(evaluations) && DistinctEvaluations(evaluations)
            && (AllBuildable(evaluations, approved) <==>
                  forall k :: 0 <= k < |approved| ==> NamesItsOption(approved[k]))
  {
    CanonicalEvaluationsDiffer(evaluations, signals, price, timestamp);
    ApprovedIsPartOfInput(signals);
    var approved := AfterSignals(Sorted(signals)).result.approved;
    DistinctPart(approved, signals);
    forall k | 0 <= k < |approved|
      ensures Buildable(evaluations, approved[k]) <==> NamesItsOption(approved[k])
    {
      assert approved[k] in multiset(approved);
      var i :| 0 <= i < |signals| && signals[i] == approved[k];
      CanonicalIsBuildable(evaluations, signals, i, price, timestamp);
    }
  }

  lemma CanonicalIsBuildable(
    evaluations: seq<Evaluation>, signals: seq<StrategySignal>, i: nat, price: real, timestamp: string)
    requires Canonical(evaluations, signals, price, timestamp) && i < |signals|
    ensures Buildable(evaluations, signals[i]) <==> NamesItsOption(signals[i])
  {
    assert CanonicalAt(evaluations, signals, i, price, timestamp);
    StripIsIdempotent(evaluations[i].strategyId);
    assert StandsFor(evaluations[i], signals[i]);
  }

  /** An option whose symbol is a single space. */
  const BLANK_SYMBOL := Signal(
    Some(Proposal(1, OPTION, BuySide, None, None, "")),
    Some(OptionIdentity("id", " ", "202609", Some(CALL), Some(350.0))), "")

  /**
    The condition is needed. A signal whose option has a blank symbol converts, alone it is approved, and
    then no command can be built for it; beside it every other approved signal of the tick is lost as well.
   */
  lemma BlankSymbolIsLost(context: RuntimeExecutionContext, strategyId: string, price: real, timestamp: string)
    requires Strip(strategyId) != ""
    ensures var evaluation := Evaluation(strategyId, BLANK_SYMBOL, context.localSequence, context);
            && Convertible(evaluation, price, timestamp)
            && var signal := SignalToCanonical(
                 BLANK_SYMBOL, IdOf(evaluation).text, Track(evaluation), price, timestamp).value;
               && AfterSignals(Sorted([signal])).result.approved == [signal]
               && MissingPart(signal) == Some(OPTION_SYMBOL_REQUIRED)
               && (forall evaluations, approved :: signal in approved ==> !AllBuildable(evaluations, approved))
  {
    var evaluation := Evaluation(strategyId, BLANK_SYMBOL, context.localSequence, context);
    IdsOfEvaluations(evaluation, evaluation);
    StripIsIdempotent(strategyId);
    assert IsSpace(' ') && StripLeft(" ") == [] == StripRight([]);
    var signal := SignalToCanonical(BLANK_SYMBOL, IdOf(evaluation).text, Track(evaluation), price, timestamp).value;
    assert [signal][..0] == [];
    assert Sorted([signal]) == Insert(Sorted([]), signal) == [signal];
    assert AfterSignals([signal]) == AfterSignal(AfterSignals([]), signal);
    forall evaluations, approved | signal in approved
      ensures !AllBuildable(evaluations, approved)
    {
      var k :| 0 <= k < |approved| && approved[k] == signal;
      assert !Buildable(evaluations, approved[k]);
    }
  }

  lemma ApprovedIsPartOfInput(signals: seq<StrategySignal>)
    requires DistinctIds(signals)
    ensures multiset(AfterSignals(Sorted(signals)).result.approved) <= multiset(signals)
  {
    SortKeeps(signals);
    SignalsAreJudged(Sorted(signals));
  }

  lemma DistinctPart(part: seq<StrategySignal>, whole: seq<StrategySignal>)
    requires DistinctIds(whole) && multiset(part) <= multiset(whole)
    ensures DistinctIds(part)
  {
    forall i, j | 0 <= i < j < |part|
      ensures part[i].signalId != part[j].signalId
    {
      assert part[i] in multiset(part) && part[j] in multiset(part);
      var k :| 0 <= k < |whole| && whole[k] == part[i];
      var l :| 0 <= l < |whole| && whole[l] == part[j];
      OccursOnce(whole, k);
      assert part == part[..i] + [part[i]] + part[i + 1..j] + [part[j]] + part[j + 1..];
      assert part[i] == part[j] ==> multiset(part)[part[i]] >= 2;
    }
  }

  lemma OccursOnce(signals: seq<StrategySignal>, k: nat)
    requires DistinctIds(signals) && k < |signals|
    ensures multiset(signals)[signals[k]] == 1
  {
    var before, after := signals[..k], signals[k + 1..];
    assert signals == before + [signals[k]] + after;
    assert signals[k] !in before && signals[k] !in after;
  }
}
