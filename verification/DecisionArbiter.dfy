/** Conflicts between strategies: a stable sort by priority, then one side per instrument. */
module Decisions {
  import opened Contracts

  datatype StrategySignal = StrategySignal(
    signalId: string,
    trackId: string,
    assetType: AssetType,
    side: OrderSide,
    qty: int,
    price: real,
    optionType: Option<OptionType>,
    strike: real,
    tagId: string,
    reason: string,
    timestamp: string,
    symbol: string,
    expiry: string)

  /** The parts that the source joins to "ASSET_strike_OPTION". */
  datatype InstrumentKey = InstrumentKey(assetType: AssetType, strike: real, optionType: Option<OptionType>)

  datatype Rejected = Rejected(signal: StrategySignal, subordinateTo: string, keptSide: OrderSide)

  datatype Clash = Clash(
    instrument: InstrumentKey, keptTrack: string, keptSide: OrderSide, rejectedTrack: string, rejectedSide: OrderSide)

  datatype Arbitration = Arbitration(
    approved: seq<StrategySignal>, rejected: seq<Rejected>, clashes: seq<Clash>)

  const STRATEGY_PRIORITY_MAP: map<string, int> := map[
    "HEDGE_DELTA" := 1, "HEDGE_TAIL" := 1, "Track1" := 2, "Track6" := 3, "Track9" := 3,
    "Track3" := 4, "Track4" := 4, "Track7" := 5, "Track8" := 5, "Track2" := 6, "Track5" := 6]

  function Priority(trackId: string): int {
    if trackId in STRATEGY_PRIORITY_MAP then STRATEGY_PRIORITY_MAP[trackId] else 99
  }

  function InstrumentOf(signal: StrategySignal): InstrumentKey {
    InstrumentKey(signal.assetType, signal.strike, signal.optionType)
  }

  // ----- the sort key -----

  /** Strings compare by code point, a proper prefix first. */
  predicate StringLess(a: string, b: string) {
    if b == [] then false
    else if a == [] then true
    else if a[0] != b[0] then a[0] < b[0]
    else StringLess(a[1..], b[1..])
  }

  /** (priority, -qty, id), lexicographically. */
  predicate KeyLess(a: StrategySignal, b: StrategySignal) {
    || Priority(a.trackId) < Priority(b.trackId)
    || (Priority(a.trackId) == Priority(b.trackId) &&
        (a.qty > b.qty || (a.qty == b.qty && StringLess(a.signalId, b.signalId))))
  }

  lemma {:induction false} StringLessIsStrictOrder(a: string, b: string, c: string)
    ensures StringLess(a, b) ==> !StringLess(b, a)
    ensures StringLess(a, b) && StringLess(b, c) ==> StringLess(a, c)
    ensures !StringLess(a, b) && !StringLess(b, a) ==> a == b
  {
    if a != [] && b != [] {
      assert a == [a[0]] + a[1..] && b == [b[0]] + b[1..];
      StringLessIsStrictOrder(a[1..], b[1..], if c == [] then [] else c[1..]);
    }
  }

  lemma KeyLessIsStrictOrder(a: StrategySignal, b: StrategySignal, c: StrategySignal)
    ensures KeyLess(a, b) ==> !KeyLess(b, a)
    ensures KeyLess(a, b) && KeyLess(b, c) ==> KeyLess(a, c)
    ensures !KeyLess(a, b) && !KeyLess(b, a) ==> a.signalId == b.signalId
  {
    StringLessIsStrictOrder(a.signalId, b.signalId, c.signalId);
  }

  // ----- sorting -----

  /** Stable: a signal goes after all those whose key is not greater than its own. */
  function Insert(sorted: seq<StrategySignal>, signal: StrategySignal): seq<StrategySignal> {
    if sorted == [] || !KeyLess(signal, sorted[|sorted| - 1]) then sorted + [signal]
    else Insert(sorted[..|sorted| - 1], signal) + [sorted[|sorted| - 1]]
  }

  function Sorted(signals: seq<StrategySignal>): seq<StrategySignal> {
    if signals == [] then []
    else Insert(Sorted(signals[..|signals| - 1]), signals[|signals| - 1])
  }

  ghost predicate DistinctIds(signals: seq<StrategySignal>) {
    forall i, j :: 0 <= i < j < |signals| ==> signals[i].signalId != signals[j].signalId
  }

  ghost predicate Ascending(signals: seq<StrategySignal>) {
    forall i, j :: 0 <= i < j < |signals| ==> KeyLess(signals[i], signals[j])
  }

  lemma {:induction false} InsertKeeps(sorted: seq<StrategySignal>, signal: StrategySignal)
    requires Ascending(sorted)
    requires forall other :: other in sorted ==> other.signalId != signal.signalId
    ensures Ascending(Insert(sorted, signal))
    ensures multiset(Insert(sorted, signal)) == multiset(sorted) + multiset{signal}
  {
    if sorted == [] || !KeyLess(signal, sorted[|sorted| - 1]) {
      AppendKeeps(sorted, signal);
    } else {
      var front, last := sorted[..|sorted| - 1], sorted[|sorted| - 1];
      assert sorted == front + [last];
      InsertKeeps(front, signal);
      var inserted := Insert(front, signal);
      forall i | 0 <= i < |inserted|
        ensures KeyLess(inserted[i], last)
      {
        assert inserted[i] in multiset(inserted);
        assert inserted[i] == signal || inserted[i] in front;
      }
    }
  }

  /** A signal that does not go before the last one goes after all of them. */
  lemma AppendKeeps(sorted: seq<StrategySignal>, signal: StrategySignal)
    requires Ascending(sorted)
    requires forall other :: other in sorted ==> other.signalId != signal.signalId
    requires sorted != [] ==> !KeyLess(signal, sorted[|sorted| - 1])
    ensures Ascending(sorted + [signal])
  {
    forall i | 0 <= i < |sorted|
      ensures KeyLess(sorted[i], signal)
    {
      var last := sorted[|sorted| - 1];
      KeyLessIsStrictOrder(last, signal, signal);
      KeyLessIsStrictOrder(sorted[i], last, signal);
    }
  }

  lemma {:induction false} SortKeeps(signals: seq<StrategySignal>)
    requires DistinctIds(signals)
    ensures Ascending(Sorted(signals))
    ensures multiset(Sorted(signals)) == multiset(signals)
  {
    if signals != [] {
      var front, last := signals[..|signals| - 1], signals[|signals| - 1];
      assert signals == front + [last];
      SortKeeps(front);
      forall other | other in Sorted(front)
        ensures other.signalId != last.signalId
      {
        assert other in multiset(Sorted(front));
        assert other in front;
      }
      InsertKeeps(Sorted(front), last);
    }
  }

  lemma {:induction false} AscendingIsUnique(a: seq<StrategySignal>, b: seq<StrategySignal>)
    requires Ascending(a) && Ascending(b) && multiset(a) == multiset(b)
    ensures a == b
  {
    if a == [] {
      assert |multiset(b)| == 0;
    } else {
      FirstIsLeast(a, b);
      TailsAgree(a, b);
      AscendingIsUnique(a[1..], b[1..]);
      assert a == [a[0]] + a[1..] && b == [b[0]] + b[1..];
    }
  }

  lemma FirstIsLeast(a: seq<StrategySignal>, b: seq<StrategySignal>)
    requires a != [] && Ascending(a) && Ascending(b) && multiset(a) == multiset(b)
    ensures b != [] && a[0] == b[0]
  {
    assert |multiset(b)| == |multiset(a)| > 0;
    assert a[0] in multiset(a) && a[0] in b;
    assert b[0] in multiset(b) && b[0] in a;
    assert a[0] == b[0] || (KeyLess(a[0], b[0]) && KeyLess(b[0], a[0]));
    KeyLessIsStrictOrder(a[0], b[0], b[0]);
  }

  lemma TailsAgree(a: seq<StrategySignal>, b: seq<StrategySignal>)
    requires a != [] && b != [] && a[0] == b[0] && multiset(a) == multiset(b)
    ensures multiset(a[1..]) == multiset(b[1..])
  {
    assert a == [a[0]] + a[1..] && b == [b[0]] + b[1..];
    assert multiset(a[1..]) == multiset(a) - multiset{a[0]};
    assert multiset(b[1..]) == multiset(b) - multiset{b[0]};
  }

  // ----- claims -----

  datatype Claims = Claims(owners: map<InstrumentKey, StrategySignal>, result: Arbitration)

  const NO_CLAIMS := Claims(map[], Arbitration([], [], []))

  function AfterSignal(claims: Claims, signal: StrategySignal): Claims {
    var key := InstrumentOf(signal);
    var Claims(owners, result) := claims;
    if key !in owners then
      Claims(owners[key := signal], result.(approved := result.approved + [signal]))
    else if owners[key].side != signal.side then
      var owner := owners[key];
      claims.(result := result.(
        rejected := result.rejected + [Rejected(signal, owner.trackId, owner.side)],
        clashes := result.clashes + [Clash(key, owner.trackId, owner.side, signal.trackId, signal.side)]))
    else claims.(result := result.(approved := result.approved + [signal]))
  }

  function AfterSignals(sorted: seq<StrategySignal>): Claims {
    if sorted == [] then NO_CLAIMS
    else AfterSignal(AfterSignals(sorted[..|sorted| - 1]), sorted[|sorted| - 1])
  }

  class DecisionArbiter {
    constructor () {
    }

    method Arbitrate(signals: seq<StrategySignal>) returns (r: Arbitration)
      ensures r == AfterSignals(Sorted(signals)).result
    {
      if signals == [] { return Arbitration([], [], []); }
      var approved: seq<StrategySignal> := [];
      var rejected: seq<Rejected> := [];
      var clashes: seq<Clash> := [];
      var sorted := Sorted(signals);
      var instrumentClaims: map<InstrumentKey, StrategySignal> := map[];
      for i := 0 to |sorted|
        invariant AfterSignals(sorted[..i]) == Claims(instrumentClaims, Arbitration(approved, rejected, clashes))
      {
        assert sorted[..i + 1][..i] == sorted[..i];
        var signal := sorted[i];
        var key := InstrumentOf(signal);
        if key !in instrumentClaims {
          instrumentClaims := instrumentClaims[key := signal];
          approved := approved + [signal];
        } else if instrumentClaims[key].side != signal.side {
          var existing := instrumentClaims[key];
          rejected := rejected + [Rejected(signal, existing.trackId, existing.side)];
          clashes := clashes + [Clash(key, existing.trackId, existing.side, signal.trackId, signal.side)];
        } else {
          approved := approved + [signal];
        }
      }
      assert sorted[..|sorted|] == sorted;
      return Arbitration(approved, rejected, clashes);
    }
  }

  // ----- what arbitration means -----

  /** The signal of least key on an instrument. */
  ghost predicate Leads(leader: StrategySignal, signals: seq<StrategySignal>, key: InstrumentKey) {
    && leader in signals && InstrumentOf(leader) == key
    && (forall other :: other in signals && InstrumentOf(other) == key && other != leader ==> KeyLess(leader, other))
  }

  function RejectedSignals(rejected: seq<Rejected>): (r: seq<StrategySignal>)
    ensures |r| == |rejected|
    ensures forall i :: 0 <= i < |r| ==> r[i] == rejected[i].signal
  {
    if rejected == [] then [] else RejectedSignals(rejected[..|rejected| - 1]) + [rejected[|rejected| - 1].signal]
  }

  /** Every instrument seen is owned by its leader. */
  ghost predicate OwnersLead(claims: Claims, signals: seq<StrategySignal>) {
    && (forall signal :: signal in signals ==> InstrumentOf(signal) in claims.owners)
    && (forall key :: key in claims.owners ==> Leads(claims.owners[key], signals, key))
  }

  ghost predicate ApprovedBy(owners: map<InstrumentKey, StrategySignal>, signal: StrategySignal) {
    InstrumentOf(signal) in owners && owners[InstrumentOf(signal)].side == signal.side
  }

  /** A rejection names the owner of the other side, and its clash record says the same. */
  ghost predicate RejectedBy(owners: map<InstrumentKey, StrategySignal>, verdict: Rejected, clash: Clash) {
    var signal := verdict.signal;
    var key := InstrumentOf(signal);
    && key in owners && owners[key].side != signal.side
    && verdict == Rejected(signal, owners[key].trackId, owners[key].side)
    && clash == Clash(key, owners[key].trackId, owners[key].side, signal.trackId, signal.side)
  }

  ghost predicate VerdictsFollow(claims: Claims) {
    var Claims(owners, Arbitration(approved, rejected, clashes)) := claims;
    && (forall signal :: signal in approved ==> ApprovedBy(owners, signal))
    && |clashes| == |rejected|
    && (forall i :: 0 <= i < |rejected| ==> RejectedBy(owners, rejected[i], clashes[i]))
  }

  /** Approved and rejected signals partition the input. */
  ghost predicate NothingLost(result: Arbitration, signals: seq<StrategySignal>) {
    multiset(result.approved) + multiset(RejectedSignals(result.rejected)) == multiset(signals)
  }

  ghost predicate Judged(claims: Claims, signals: seq<StrategySignal>) {
    OwnersLead(claims, signals) && VerdictsFollow(claims) && NothingLost(claims.result, signals)
  }

  lemma {:induction false} SignalsAreJudged(sorted: seq<StrategySignal>)
    requires Ascending(sorted)
    ensures Judged(AfterSignals(sorted), sorted)
  {
    if sorted != [] {
      SignalsAreJudged(sorted[..|sorted| - 1]);
      NextIsJudged(AfterSignals(sorted[..|sorted| - 1]), sorted);
    }
  }

  lemma NextIsJudged(claims: Claims, signals: seq<StrategySignal>)
    requires signals != [] && Ascending(signals)
    requires Judged(claims, signals[..|signals| - 1])
    ensures Judged(AfterSignal(claims, signals[|signals| - 1]), signals)
  {
    NextKeepsOwners(claims, signals);
    NextKeepsVerdicts(claims, signals[|signals| - 1]);
    NextLosesNothing(claims, signals);
  }

  lemma NextKeepsOwners(claims: Claims, signals: seq<StrategySignal>)
    requires signals != [] && Ascending(signals)
    requires OwnersLead(claims, signals[..|signals| - 1])
    ensures OwnersLead(AfterSignal(claims, signals[|signals| - 1]), signals)
  {
    var front, last := signals[..|signals| - 1], signals[|signals| - 1];
    var after := AfterSignal(claims, last);
    assert forall signal :: signal in signals ==> signal in front || signal == last;
    forall key | key in after.owners
      ensures Leads(after.owners[key], signals, key)
    {
      if key in claims.owners {
        assert Leads(claims.owners[key], front, key);
      } else {
        assert forall other :: other in front ==> InstrumentOf(other) != key;
      }
    }
  }

  lemma NextKeepsVerdicts(claims: Claims, last: StrategySignal)
    requires VerdictsFollow(claims)
    ensures VerdictsFollow(AfterSignal(claims, last))
  {
    var after := AfterSignal(claims, last);
    var verdicts, clashes := after.result.rejected, after.result.clashes;
    forall i | 0 <= i < |verdicts|
      ensures RejectedBy(after.owners, verdicts[i], clashes[i])
    {
      if i < |claims.result.rejected| {
        assert RejectedBy(claims.owners, claims.result.rejected[i], claims.result.clashes[i]);
      }
    }
  }

  lemma NextLosesNothing(claims: Claims, signals: seq<StrategySignal>)
    requires signals != []
    requires NothingLost(claims.result, signals[..|signals| - 1])
    ensures NothingLost(AfterSignal(claims, signals[|signals| - 1]).result, signals)
  {
    var last := signals[|signals| - 1];
    var before, after := claims.result, AfterSignal(claims, last).result;
    OneMoreMember(signals);
    if after.rejected == before.rejected {
      assert after.approved == before.approved + [last];
    } else {
      var owner := claims.owners[InstrumentOf(last)];
      OneMoreRejected(before.rejected, Rejected(last, owner.trackId, owner.side));
    }
  }

  lemma OneMoreMember(signals: seq<StrategySignal>)
    requires signals != []
    ensures multiset(signals) == multiset(signals[..|signals| - 1]) + multiset{signals[|signals| - 1]}
  {
    assert signals == signals[..|signals| - 1] + [signals[|signals| - 1]];
  }

  lemma OneMoreRejected(rejected: seq<Rejected>, next: Rejected)
    ensures multiset(RejectedSignals(rejected + [next])) == multiset(RejectedSignals(rejected)) + multiset{next.signal}
  {
    assert (rejected + [next])[..|rejected|] == rejected;
  }

  // ----- in the signals' own terms -----

  /** The tracks by rank: hedges first, and after all that are listed any other. */
  function Rank(trackId: string): nat {
    if trackId == "HEDGE_DELTA" || trackId == "HEDGE_TAIL" then 0
    else if trackId == "Track1" then 1
    else if trackId == "Track6" || trackId == "Track9" then 2
    else if trackId == "Track3" || trackId == "Track4" then 3
    else if trackId == "Track7" || trackId == "Track8" then 4
    else if trackId == "Track2" || trackId == "Track5" then 5
    else 6
  }

  /** `a` stands before `b` in a dictionary of code points. */
  ghost predicate SpelledBefore(a: string, b: string) {
    exists k :: 0 <= k <= |a| && k < |b| && a[..k] == b[..k] && (k == |a| || a[k] < b[k])
  }

  /** The better track, or else the larger quantity, or else the smaller id. */
  ghost predicate GoesBefore(a: StrategySignal, b: StrategySignal) {
    || Rank(a.trackId) < Rank(b.trackId)
    || (Rank(a.trackId) == Rank(b.trackId) &&
        (a.qty > b.qty || (a.qty == b.qty && SpelledBefore(a.signalId, b.signalId))))
  }

  predicate SameInstrument(a: StrategySignal, b: StrategySignal) {
    a.assetType == b.assetType && a.strike == b.strike && a.optionType == b.optionType
  }

  lemma RankIsPriority(trackId: string)
    ensures Priority(trackId) == if Rank(trackId) < 6 then Rank(trackId) + 1 else 99
  {
  }

  lemma {:induction false} StringLessIsSpelledBefore(a: string, b: string)
    ensures StringLess(a, b) <==> SpelledBefore(a, b)
  {
    if a == [] && b != [] {
      assert a[..0] == b[..0];
    } else if a != [] && b != [] {
      if a[0] != b[0] {
        FirstLetterDecides(a, b);
      } else {
        StringLessIsSpelledBefore(a[1..], b[1..]);
        TailDecides(a, b);
      }
    }
  }

  lemma FirstLetterDecides(a: string, b: string)
    requires a != [] && b != [] && a[0] != b[0]
    ensures SpelledBefore(a, b) <==> a[0] < b[0]
  {
    if a[0] < b[0] {
      assert a[..0] == b[..0];
    }
    if k :| 0 <= k <= |a| && k < |b| && a[..k] == b[..k] && (k == |a| || a[k] < b[k]) {
      if k > 0 {
        SameFirstLetter(a, b, k);
      }
    }
  }

  lemma SameFirstLetter(a: string, b: string, k: nat)
    requires 0 < k <= |a| && k <= |b| && a[..k] == b[..k]
    ensures a[0] == b[0]
  {
    assert a[..k][0] == b[..k][0];
  }

  lemma TailDecides(a: string, b: string)
    requires a != [] && b != [] && a[0] == b[0]
    ensures SpelledBefore(a, b) <==> SpelledBefore(a[1..], b[1..])
  {
    if k :| 0 <= k <= |a| && k < |b| && a[..k] == b[..k] && (k == |a| || a[k] < b[k]) {
      assert k > 0;
      assert a[1..][..k - 1] == a[..k][1..] && b[1..][..k - 1] == b[..k][1..];
    }
    if k :| 0 <= k <= |a[1..]| && k < |b[1..]| && a[1..][..k] == b[1..][..k]
            && (k == |a[1..]| || a[1..][k] < b[1..][k])
    {
      assert a[..k + 1] == [a[0]] + a[1..][..k] && b[..k + 1] == [b[0]] + b[1..][..k];
    }
  }

  /** The sort key orders signals as their own fields do. */
  lemma KeyOrdersByFields(a: StrategySignal, b: StrategySignal)
    ensures KeyLess(a, b) <==> GoesBefore(a, b)
  {
    RankIsPriority(a.trackId);
    RankIsPriority(b.trackId);
    StringLessIsSpelledBefore(a.signalId, b.signalId);
  }

  /** The signal that goes before all others on this signal's instrument. */
  ghost predicate GoesFirst(first: StrategySignal, signals: seq<StrategySignal>, signal: StrategySignal) {
    && first in signals && SameInstrument(first, signal)
    && (forall other :: other in signals && SameInstrument(other, signal) && other != first ==>
          GoesBefore(first, other))
  }

  lemma FirstLeads(first: StrategySignal, signals: seq<StrategySignal>, signal: StrategySignal)
    ensures GoesFirst(first, signals, signal) <==> Leads(first, signals, InstrumentOf(signal))
  {
    forall other
      ensures KeyLess(first, other) <==> GoesBefore(first, other)
    {
      KeyOrdersByFields(first, other);
    }
    assert forall other :: SameInstrument(other, signal) <==> InstrumentOf(other) == InstrumentOf(signal);
  }

  /** Each signal goes before the next ones. */
  ghost predicate InTurn(signals: seq<StrategySignal>) {
    forall i, j :: 0 <= i < j < |signals| ==> GoesBefore(signals[i], signals[j])
  }

  /** The record of a clash says who was kept and who was not. */
  ghost predicate Records(clash: Clash, first: StrategySignal, signal: StrategySignal) {
    && clash.instrument == InstrumentKey(signal.assetType, signal.strike, signal.optionType)
    && clash.keptTrack == first.trackId && clash.keptSide == first.side
    && clash.rejectedTrack == signal.trackId && clash.rejectedSide == signal.side
  }

  /**
    Arbitration equals its meaning, in the signals' own fields. With distinct signal ids, approved and rejected
    signals partition the input, each in turn. Of the signals with one asset type, strike and option type the one
    that goes first decides: a signal is rejected exactly if its side is another than that one's, and its rejection
    names that one.
   */
  lemma ArbitrationMeaning(signals: seq<StrategySignal>, signal: StrategySignal, first: StrategySignal)
    requires DistinctIds(signals) && signal in signals && GoesFirst(first, signals, signal)
    ensures var r := AfterSignals(Sorted(signals)).result;
            && multiset(r.approved) + multiset(RejectedSignals(r.rejected)) == multiset(signals)
            && (signal in RejectedSignals(r.rejected) <==> signal.side != first.side)
            && (signal in r.approved <==> signal.side == first.side)
            && (signal.side != first.side ==> Rejected(signal, first.trackId, first.side) in r.rejected)
  {
    var sorted := Sorted(signals);
    SortKeeps(signals);
    SignalsAreJudged(sorted);
    SameMembers(signals, sorted);
    FirstLeads(first, signals, signal);
    assert Leads(first, sorted, InstrumentOf(signal));
    JudgedMeaning(AfterSignals(sorted), sorted, signal, first);
  }

  /** Approved and rejected signals come in turn. */
  lemma ArbitrationComesInTurn(signals: seq<StrategySignal>)
    requires DistinctIds(signals)
    ensures var r := AfterSignals(Sorted(signals)).result;
            InTurn(r.approved) && InTurn(RejectedSignals(r.rejected))
  {
    SortKeeps(signals);
    VerdictsComeInTurn(Sorted(signals));
    var r := AfterSignals(Sorted(signals)).result;
    AscendingIsInTurn(r.approved);
    AscendingIsInTurn(RejectedSignals(r.rejected));
  }

  /** The clashes are the records of the rejections, in their order. */
  lemma RejectionsAreRecorded(signals: seq<StrategySignal>, i: nat)
    requires DistinctIds(signals) && i < |AfterSignals(Sorted(signals)).result.rejected|
    ensures var r := AfterSignals(Sorted(signals)).result;
            && |r.clashes| == |r.rejected|
            && (exists first :: GoesFirst(first, signals, r.rejected[i].signal) &&
                                Records(r.clashes[i], first, r.rejected[i].signal))
  {
    var sorted := Sorted(signals);
    SortKeeps(signals);
    SignalsAreJudged(sorted);
    SameMembers(signals, sorted);
    JudgedIsRecorded(AfterSignals(sorted), signals, i);
  }

  lemma JudgedIsRecorded(claims: Claims, signals: seq<StrategySignal>, i: nat)
    requires VerdictsFollow(claims) && i < |claims.result.rejected|
    requires forall key :: key in claims.owners ==> Leads(claims.owners[key], signals, key)
    ensures exists first :: GoesFirst(first, signals, claims.result.rejected[i].signal) &&
                            Records(claims.result.clashes[i], first, claims.result.rejected[i].signal)
  {
    var verdict, clash := claims.result.rejected[i], claims.result.clashes[i];
    assert RejectedBy(claims.owners, verdict, clash);
    var key := InstrumentOf(verdict.signal);
    assert Leads(claims.owners[key], signals, key);
    FirstLeads(claims.owners[key], signals, verdict.signal);
    assert Records(clash, claims.owners[key], verdict.signal);
  }

  lemma AscendingIsInTurn(signals: seq<StrategySignal>)
    requires Ascending(signals)
    ensures InTurn(signals)
  {
    forall i, j | 0 <= i < j < |signals|
      ensures GoesBefore(signals[i], signals[j])
    {
      KeyOrdersByFields(signals[i], signals[j]);
    }
  }

  /** Everything judged so far stands in turn, before `next`. */
  ghost predicate AllBefore(signals: seq<StrategySignal>, next: StrategySignal) {
    forall signal :: signal in signals ==> KeyLess(signal, next)
  }

  lemma {:induction false} VerdictsComeInTurn(sorted: seq<StrategySignal>)
    requires Ascending(sorted)
    ensures var r := AfterSignals(sorted).result;
            && Ascending(r.approved) && Ascending(RejectedSignals(r.rejected))
            && (forall signal :: signal in r.approved || signal in RejectedSignals(r.rejected) ==> signal in sorted)
  {
    if sorted != [] {
      var front, last := sorted[..|sorted| - 1], sorted[|sorted| - 1];
      VerdictsComeInTurn(front);
      var before := AfterSignals(front);
      assert AllBefore(front, last) by {
        forall signal | signal in front
          ensures KeyLess(signal, last)
        {
          var i :| 0 <= i < |front| && front[i] == signal;
          assert KeyLess(sorted[i], sorted[|sorted| - 1]);
        }
      }
      NextComesInTurn(before, front, last);
      assert sorted == front + [last];
    }
  }

  lemma NextComesInTurn(before: Claims, front: seq<StrategySignal>, last: StrategySignal)
    requires AllBefore(front, last)
    requires Ascending(before.result.approved) && Ascending(RejectedSignals(before.result.rejected))
    requires forall signal ::
               signal in before.result.approved || signal in RejectedSignals(before.result.rejected) ==> signal in front
    ensures var r := AfterSignal(before, last).result;
            && Ascending(r.approved) && Ascending(RejectedSignals(r.rejected))
            && (forall signal :: signal in r.approved || signal in RejectedSignals(r.rejected) ==>
                  signal in front + [last])
  {
    var r := AfterSignal(before, last).result;
    if r.rejected != before.result.rejected {
      var verdict := r.rejected[|r.rejected| - 1];
      assert r.rejected[..|r.rejected| - 1] == before.result.rejected;
      assert RejectedSignals(r.rejected) == RejectedSignals(before.result.rejected) + [last];
    }
  }

  lemma SameMembers(a: seq<StrategySignal>, b: seq<StrategySignal>)
    requires multiset(a) == multiset(b)
    ensures forall signal :: signal in a <==> signal in b
  {
    assert forall signal :: signal in a <==> signal in multiset(a);
    assert forall signal :: signal in b <==> signal in multiset(b);
  }

  lemma JudgedMeaning(claims: Claims, signals: seq<StrategySignal>, signal: StrategySignal, leader: StrategySignal)
    requires Judged(claims, signals) && signal in signals && Leads(leader, signals, InstrumentOf(signal))
    ensures var r := claims.result;
            && (signal in RejectedSignals(r.rejected) <==> signal.side != leader.side)
            && (signal in r.approved <==> signal.side == leader.side)
            && (signal.side != leader.side ==> Rejected(signal, leader.trackId, leader.side) in r.rejected)
  {
    var r, owner := claims.result, claims.owners[InstrumentOf(signal)];
    assert Leads(owner, signals, InstrumentOf(signal));
    KeyLessIsStrictOrder(owner, leader, leader);
    assert owner == leader;
    var subordinates := RejectedSignals(r.rejected);
    assert signal in multiset(signals);
    assert signal in r.approved || signal in subordinates;
    if signal in r.approved {
      assert ApprovedBy(claims.owners, signal);
    }
    if signal in subordinates {
      var i :| 0 <= i < |subordinates| && subordinates[i] == signal;
      assert RejectedBy(claims.owners, r.rejected[i], r.clashes[i]);
    }
  }

  /** Every instrument with a signal has one that goes first, so that the meaning is never vacuous. */
  lemma LeaderExists(signals: seq<StrategySignal>, signal: StrategySignal)
    requires DistinctIds(signals) && signal in signals
    ensures exists first :: GoesFirst(first, signals, signal)
  {
    var sorted := Sorted(signals);
    SortKeeps(signals);
    SignalsAreJudged(sorted);
    SameMembers(signals, sorted);
    var owner := AfterSignals(sorted).owners[InstrumentOf(signal)];
    assert Leads(owner, signals, InstrumentOf(signal));
    FirstLeads(owner, signals, signal);
  }

  /** Arbitration does not depend on the order in which strategies report their signals. */
  lemma ArbitrationIgnoresOrder(a: seq<StrategySignal>, b: seq<StrategySignal>)
    requires DistinctIds(a) && DistinctIds(b) && multiset(a) == multiset(b)
    ensures AfterSignals(Sorted(a)) == AfterSignals(Sorted(b))
  {
    SortKeeps(a);
    SortKeeps(b);
    AscendingIsUnique(Sorted(a), Sorted(b));
  }
}
