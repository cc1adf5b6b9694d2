/**
  The OMS against the broker's true fills. Both sources tell of the same fills: a notice of one of
  them, a snapshot row of the first so many. What has been witnessed of an order is what either has told.
 */
module BrokerFills {
  import opened Contracts
  import opened Ledger
  import opened OrderStates
  import opened Settlement
  import opened ExecutionReports
  import opened RecoveryService
  import opened OrderRouting
  import opened SettlementRuns
  import opened SettlementSafety

  /** A fill at the broker, and the frame of the notice that tells of it. */
  datatype TrueFill = TrueFill(frame: string, quantity: int)

  ghost predicate Proper(fills: seq<TrueFill>) {
    && (forall k :: 0 <= k < |fills| ==> fills[k].quantity > 0)
    && (forall k, l :: 0 <= k < l < |fills| ==> fills[k].frame != fills[l].frame)
  }

  function Sum(fills: seq<TrueFill>): int {
    if fills == [] then 0 else Sum(fills[..|fills| - 1]) + fills[|fills| - 1].quantity
  }

  /** The total of those fills that are in `some`. */
  ghost function Measure(fills: seq<TrueFill>, some: set<nat>): int {
    if fills == [] then 0
    else Measure(fills[..|fills| - 1], some) + if |fills| - 1 in some then fills[|fills| - 1].quantity else 0
  }

  /** The quantity up to and including the `k`-th fill. */
  function UpTo(fills: seq<TrueFill>, k: nat): int
    requires k < |fills|
  {
    Sum(fills[..k + 1])
  }

  /** The fills that a snapshot of this cumulative quantity tells of. */
  function Covered(fills: seq<TrueFill>, cumulative: int): set<nat> {
    set k: nat | k < |fills| && UpTo(fills, k) <= cumulative
  }

  /** The fills of an order that a report tells of. */
  function Witnesses(fills: seq<TrueFill>, client: string, report: ExecutionReport): set<nat> {
    if report.clientOrderId != client then {}
    else
      match report.executionId
      case RealtimeFrame(frame) => set k: nat | k < |fills| && fills[k].frame == frame
      case RestSnapshot(_, cumulative, _) => Covered(fills, cumulative)
      case _ => {}
  }

  function Witnessed(fills: seq<TrueFill>, client: string, settled: seq<ExecutionReport>): (r: set<nat>)
    ensures forall k :: k in r ==> k < |fills|
  {
    if settled == [] then {}
    else Witnessed(fills, client, settled[..|settled| - 1]) + Witnesses(fills, client, settled[|settled| - 1])
  }

  /** A notice is of one of the fills, a snapshot is of a prefix of them. */
  ghost predicate TellsTheTruth(fills: seq<TrueFill>, report: ExecutionReport) {
    match report.executionId
    case RealtimeFrame(frame) =>
      exists k :: 0 <= k < |fills| && fills[k] == TrueFill(frame, report.filledQuantity)
    case RestSnapshot(_, cumulative, _) =>
      exists n :: 0 <= n <= |fills| && cumulative == Sum(fills[..n])
    case _ => false
  }

  ghost predicate Truthful(fills: seq<TrueFill>, client: string, settled: seq<ExecutionReport>) {
    && Proper(fills)
    && (forall report :: report in settled && report.clientOrderId == client ==> TellsTheTruth(fills, report))
  }

  /** A notice of a fill that has been witnessed already. */
  predicate Late(fills: seq<TrueFill>, client: string, before: seq<ExecutionReport>, report: ExecutionReport) {
    && report.clientOrderId == client && report.executionId.RealtimeFrame?
    && !(Witnesses(fills, client, report) !! Witnessed(fills, client, before))
  }

  /** A snapshot that does not cover all that has been witnessed already. */
  predicate Outdated(fills: seq<TrueFill>, client: string, before: seq<ExecutionReport>, report: ExecutionReport) {
    && report.clientOrderId == client && report.executionId.RestSnapshot?
    && !(Witnessed(fills, client, before) <= Witnesses(fills, client, report))
  }

  // ----- measures -----

  lemma {:induction false} MeasureOfNone(fills: seq<TrueFill>, some: set<nat>)
    requires forall k :: k in some ==> |fills| <= k
    ensures Measure(fills, some) == 0
  {
    if fills != [] {
      MeasureOfNone(fills[..|fills| - 1], some);
    }
  }

  /** More fills measure more, and strictly more if one of them is new. */
  lemma {:induction false} MeasureGrows(fills: seq<TrueFill>, some: set<nat>, more: set<nat>)
    requires Proper(fills) && some <= more
    ensures Measure(fills, some) <= Measure(fills, more)
    ensures (exists k :: k in more && k !in some && k < |fills|) ==> Measure(fills, some) < Measure(fills, more)
  {
    if fills != [] {
      MeasureGrows(fills[..|fills| - 1], some, more);
      if |fills| - 1 in more && |fills| - 1 !in some {
        assert Measure(fills, some) < Measure(fills, more);
      } else if k :| k in more && k !in some && k < |fills| {
        assert k < |fills| - 1;
      }
    }
  }

  lemma {:induction false} MeasureOfOneMore(fills: seq<TrueFill>, some: set<nat>, k: nat)
    requires k < |fills| && k !in some
    ensures Measure(fills, some + {k}) == Measure(fills, some) + fills[k].quantity
  {
    var front := fills[..|fills| - 1];
    if k < |front| {
      MeasureOfOneMore(front, some, k);
    } else {
      SameMeasure(front, some, some + {k});
    }
  }

  lemma {:induction false} SameMeasure(fills: seq<TrueFill>, some: set<nat>, other: set<nat>)
    requires forall k: nat :: k < |fills| ==> (k in some <==> k in other)
    ensures Measure(fills, some) == Measure(fills, other)
  {
    if fills != [] {
      SameMeasure(fills[..|fills| - 1], some, other);
    }
  }

  lemma {:induction false} MeasureIsWithinSum(fills: seq<TrueFill>, some: set<nat>)
    requires Proper(fills)
    ensures Measure(fills, some) <= Sum(fills)
  {
    if fills != [] {
      MeasureIsWithinSum(fills[..|fills| - 1], some);
    }
  }

  lemma {:induction false} MeasureOfAll(fills: seq<TrueFill>, some: set<nat>)
    requires forall k: nat :: k < |fills| ==> k in some
    ensures Measure(fills, some) == Sum(fills)
  {
    if fills != [] {
      MeasureOfAll(fills[..|fills| - 1], some);
    }
  }

  lemma {:induction false} PrefixSumsGrow(fills: seq<TrueFill>, m: nat, n: nat)
    requires Proper(fills) && m < n <= |fills|
    ensures Sum(fills[..m]) < Sum(fills[..n])
    decreases n
  {
    assert fills[..n][..n - 1] == fills[..n - 1];
    if m < n - 1 {
      PrefixSumsGrow(fills, m, n - 1);
    }
  }

  /** A snapshot of the first `n` fills covers exactly these, and they measure what it says. */
  lemma CoveredIsPrefix(fills: seq<TrueFill>, n: nat)
    requires Proper(fills) && n <= |fills|
    ensures var covered := Covered(fills, Sum(fills[..n]));
            && (forall k: nat :: k in covered <==> k < n)
            && Measure(fills, covered) == Sum(fills[..n])
  {
    var covered := Covered(fills, Sum(fills[..n]));
    forall k: nat | k < |fills|
      ensures UpTo(fills, k) <= Sum(fills[..n]) <==> k < n
    {
      PrefixIsWithin(fills, k, n);
    }
    MeasureOfPrefix(fills, covered, n);
  }

  lemma PrefixIsWithin(fills: seq<TrueFill>, k: nat, n: nat)
    requires Proper(fills) && k < |fills| && n <= |fills|
    ensures UpTo(fills, k) <= Sum(fills[..n]) <==> k < n
  {
    if k + 1 < n {
      PrefixSumsGrow(fills, k + 1, n);
    } else if n < k + 1 {
      PrefixSumsGrow(fills, n, k + 1);
    }
  }

  lemma {:induction false} MeasureOfPrefix(fills: seq<TrueFill>, some: set<nat>, n: nat)
    requires n <= |fills| && forall k: nat :: k in some <==> k < n
    ensures Measure(fills, some) == Sum(fills[..n])
  {
    if n == |fills| {
      assert fills[..n] == fills;
      MeasureOfAll(fills, some);
    } else {
      assert fills[..|fills| - 1][..n] == fills[..n];
      MeasureOfPrefix(fills[..|fills| - 1], some, n);
    }
  }

  // ----- one settled report -----

  /** The order's count after a number of settled reports, which is its filled quantity in the OMS. */
  function Count(settled: seq<ExecutionReport>, client: string): int {
    SettledAmount(settled, client).quantity
  }

  /**
    How count and measure move. A notice moves the count by its fill's quantity, the measure as well
    unless it is late; a snapshot takes the count to what it covers, which is everything witnessed
    unless it is outdated.
   */
  lemma OneReportMoves(fills: seq<TrueFill>, client: string, before: seq<ExecutionReport>, report: ExecutionReport)
    requires Proper(fills) && (report.clientOrderId == client ==> TellsTheTruth(fills, report))
    requires CountedAt(before + [report], |before|)
    ensures var all := before + [report];
            var count, count' := Count(before, client), Count(all, client);
            var measure := Measure(fills, Witnessed(fills, client, before));
            var measure' := Measure(fills, Witnessed(fills, client, all));
            && (report.clientOrderId != client ==> count' == count && measure' == measure)
            && (report.clientOrderId == client && report.executionId.RealtimeFrame? ==>
                  && report.filledQuantity > 0 && count' == count + report.filledQuantity
                  && measure' == measure + if Late(fills, client, before, report) then 0 else report.filledQuantity)
            && (report.clientOrderId == client && report.executionId.RestSnapshot? ==>
                  && count' <= measure'
                  && (count' == measure' <==> !Outdated(fills, client, before, report)))
  {
    var all := before + [report];
    assert all[..|before|] == before && all[..|before| + 1] == all;
    var seen, told := Witnessed(fills, client, before), Witnesses(fills, client, report);
    assert Witnessed(fills, client, all) == seen + told;
    if report.clientOrderId != client {
      assert seen + told == seen;
    } else if report.executionId.RealtimeFrame? {
      NoticeMoves(fills, client, seen, report);
    } else {
      SnapshotMoves(fills, client, seen, report);
    }
  }

  lemma NoticeMoves(fills: seq<TrueFill>, client: string, seen: set<nat>, report: ExecutionReport)
    requires Proper(fills) && TellsTheTruth(fills, report) && report.clientOrderId == client
    requires report.executionId.RealtimeFrame?
    ensures var told := Witnesses(fills, client, report);
            Measure(fills, seen + told)
            == Measure(fills, seen) + if told !! seen then report.filledQuantity else 0
  {
    var k :| 0 <= k < |fills| && fills[k] == TrueFill(report.executionId.frame, report.filledQuantity);
    var told := Witnesses(fills, client, report);
    assert told == {k};
    if k in seen {
      assert seen + told == seen;
    } else {
      MeasureOfOneMore(fills, seen, k);
    }
  }

  lemma SnapshotMoves(fills: seq<TrueFill>, client: string, seen: set<nat>, report: ExecutionReport)
    requires Proper(fills) && TellsTheTruth(fills, report) && report.clientOrderId == client
    requires report.executionId.RestSnapshot? && forall k :: k in seen ==> k < |fills|
    ensures var told, cumulative := Witnesses(fills, client, report), report.executionId.cumulative;
            && cumulative <= Measure(fills, seen + told)
            && (cumulative == Measure(fills, seen + told) <==> seen <= told)
  {
    var told := Witnesses(fills, client, report);
    var n :| 0 <= n <= |fills| && report.executionId.cumulative == Sum(fills[..n]);
    CoveredIsPrefix(fills, n);
    MeasureGrows(fills, told, seen + told);
    if seen <= told {
      assert seen + told == told;
    } else {
      var k :| k in seen && k !in told;
      assert k in seen + told;
    }
  }

  // ----- whole runs -----

  ghost predicate CountIsMeasure(fills: seq<TrueFill>, client: string, settled: seq<ExecutionReport>) {
    Count(settled, client) == Measure(fills, Witnessed(fills, client, settled))
  }

  /** At every moment, after each report, the OMS counts exactly what has been witnessed. */
  ghost predicate CountsTheWitnessed(fills: seq<TrueFill>, client: string, settled: seq<ExecutionReport>) {
    && CountIsMeasure(fills, client, settled)
    && (settled == [] || CountsTheWitnessed(fills, client, settled[..|settled| - 1]))
  }

  ghost predicate CountIsWithin(fills: seq<TrueFill>, client: string, settled: seq<ExecutionReport>) {
    Count(settled, client) <= Measure(fills, Witnessed(fills, client, settled))
  }

  /** At no moment does it count more. */
  ghost predicate NeverCountsMore(fills: seq<TrueFill>, client: string, settled: seq<ExecutionReport>) {
    && CountIsWithin(fills, client, settled)
    && (settled == [] || NeverCountsMore(fills, client, settled[..|settled| - 1]))
  }

  /** No report comes late, in the order in which they were settled. */
  ghost predicate NoneLate(fills: seq<TrueFill>, client: string, settled: seq<ExecutionReport>) {
    settled == [] ||
    (var front, last := settled[..|settled| - 1], settled[|settled| - 1];
     NoneLate(fills, client, front) && !Late(fills, client, front, last))
  }

  ghost predicate NoneOutdated(fills: seq<TrueFill>, client: string, settled: seq<ExecutionReport>) {
    settled == [] ||
    (var front, last := settled[..|settled| - 1], settled[|settled| - 1];
     NoneOutdated(fills, client, front) && !Outdated(fills, client, front, last))
  }

  lemma PrefixIsTruthful(fills: seq<TrueFill>, client: string, settled: seq<ExecutionReport>)
    requires settled != [] && Truthful(fills, client, settled) && SnapshotsCounted(settled)
    ensures var front := settled[..|settled| - 1];
            Truthful(fills, client, front) && SnapshotsCounted(front)
  {
    var front := settled[..|settled| - 1];
    forall i | 0 <= i < |front|
      ensures CountedAt(front, i)
    {
      assert CountedAt(settled, i);
      assert front[..i + 1] == settled[..i + 1];
    }
  }

  lemma {:induction false} SettledInOrder(fills: seq<TrueFill>, client: string, settled: seq<ExecutionReport>)
    requires Truthful(fills, client, settled) && SnapshotsCounted(settled)
    ensures CountsTheWitnessed(fills, client, settled) <==>
              NoneLate(fills, client, settled) && NoneOutdated(fills, client, settled)
    ensures NoneLate(fills, client, settled) ==> NeverCountsMore(fills, client, settled)
    ensures NoneOutdated(fills, client, settled) && NeverCountsMore(fills, client, settled) ==>
              NoneLate(fills, client, settled)
  {
    if settled == [] {
      MeasureOfNone(fills, {});
    } else {
      var front, last := settled[..|settled| - 1], settled[|settled| - 1];
      PrefixIsTruthful(fills, client, settled);
      SettledInOrder(fills, client, front);
      assert front + [last] == settled && CountedAt(settled, |front|);
      NextKeepsOrder(fills, client, front, last);
    }
  }

  /** From agreement a report leads to agreement exactly if it is neither late nor outdated. */
  lemma NextKeepsOrder(fills: seq<TrueFill>, client: string, front: seq<ExecutionReport>, last: ExecutionReport)
    requires Proper(fills) && (last.clientOrderId == client ==> TellsTheTruth(fills, last))
    requires CountedAt(front + [last], |front|)
    ensures CountIsMeasure(fills, client, front) ==>
              (CountIsMeasure(fills, client, front + [last]) <==>
                 !Late(fills, client, front, last) && !Outdated(fills, client, front, last))
    ensures CountIsMeasure(fills, client, front) && Late(fills, client, front, last) ==>
              !CountIsWithin(fills, client, front + [last])
    ensures CountIsWithin(fills, client, front) && !Late(fills, client, front, last) ==>
              CountIsWithin(fills, client, front + [last])
  {
    OneReportMoves(fills, client, front, last);
  }

  /**
    The two sources agree, exactly. In every run whose reports about an order tell the truth, the OMS
    counts at every moment exactly the fills of which it has been told, if and only if no notice is
    settled for a fill already told of and no snapshot is settled that misses one.
   */
  lemma SourcesAgreeExactly(instrumentId: string, events: seq<Event>, client: string, fills: seq<TrueFill>)
    requires Truthful(fills, client, Reached(instrumentId, events).settled)
    ensures var settled := Reached(instrumentId, events).settled;
            CountsTheWitnessed(fills, client, settled) <==>
              NoneLate(fills, client, settled) && NoneOutdated(fills, client, settled)
  {
    SettledInOrder(fills, client, Reached(instrumentId, events).settled);
  }

  /**
    And it never counts a fill twice: while no notice comes late it never counts more than it has been told
    of, so never more than there is; and, unless a snapshot misses a fill, only then.
   */
  lemma NothingIsCountedTwice(instrumentId: string, events: seq<Event>, client: string, fills: seq<TrueFill>)
    requires Truthful(fills, client, Reached(instrumentId, events).settled)
    ensures var run := Reached(instrumentId, events);
            && (NoneLate(fills, client, run.settled) ==> NeverCountsMore(fills, client, run.settled))
            && (NoneOutdated(fills, client, run.settled) ==>
                  (NeverCountsMore(fills, client, run.settled) <==> NoneLate(fills, client, run.settled)))
            && (NoneLate(fills, client, run.settled) && client in run.world.oms.states ==>
                  run.world.oms.states[client].filledQuantity <= Sum(fills))
  {
    var run := Reached(instrumentId, events);
    SettledInOrder(fills, client, run.settled);
    MeasureIsWithinSum(fills, Witnessed(fills, client, run.settled));
    if client in run.world.oms.states {
      assert OrderSettled(run.settled, client, run.world.oms.states[client]);
    }
  }

  // ----- where the sources disagree -----

  /** The order can be filled up to `cumulative`. */
  predicate OpenTo(oms: Oms, client: string, cumulative: int) {
    && client in oms.states
    && var state := oms.states[client];
       && (state.status.ACKED? || state.status.PARTIALLY_FILLED?)
       && state.command.Some? && state.filledQuantity < cumulative <= state.orderQuantity
  }

  /** One report is settled, and takes the order to `cumulative`. */
  ghost predicate TakenTo(run: Run, after: Run, client: string, report: ExecutionReport, cumulative: int)
    requires client in run.world.oms.states
  {
    var before := run.world.oms.states[client];
    && after.settled == run.settled + [report]
    && after.world.seen == run.world.seen + {report.executionId}
    && report.clientOrderId == client && report.filledQuantity == cumulative - before.filledQuantity
    && client in after.world.oms.states
    && var now := after.world.oms.states[client];
       && now.filledQuantity == cumulative && now.orderQuantity == before.orderQuantity
       && now.status == FillStatus(cumulative, before.orderQuantity)
       && now.brokerOrderId == before.brokerOrderId && now.command == before.command
       && (before.filledQuantity == 0 ==> now.averagePrice == report.executionPrice)
  }

  /** A report that an adapter builds against the present count of an open order is settled. */
  lemma BuiltReportIsTaken(run: Run, client: string, report: ExecutionReport, cumulative: int)
    requires Invariant(run) && OpenTo(run.world.oms, client, cumulative)
    requires AdapterBuilt(run.world.oms, report) && report.clientOrderId == client
    requires report.brokerOrderId == run.world.oms.states[client].brokerOrderId
    requires report.executionId !in run.world.seen
    requires report.filledQuantity == cumulative - run.world.oms.states[client].filledQuantity
    requires report.remainingQuantity == run.world.oms.states[client].orderQuantity - cumulative
    ensures TakenTo(run, AfterDelivery(run, report), client, report, cumulative)
  {
    assert ConsistentOrder(run.world.oms, client, run.world.oms.states[client]);
    RemainingQuantityIsAVersion(run.world, report);
    AdmissionAdvances(run.world, report);
  }

  function NoticeOf(oms: Oms, client: string, frame: string, quantity: int, price: real): ExecutionNotice
    requires client in oms.states
  {
    ExecutionNotice(frame, oms.states[client].brokerOrderId, true, Some(quantity), Some(price))
  }

  lemma NoticeIsTaken(run: Run, client: string, frame: string, quantity: int, price: real)
    returns (report: ExecutionReport)
    requires Invariant(run) && client in run.world.oms.states
    requires OpenTo(run.world.oms, client, run.world.oms.states[client].filledQuantity + quantity)
    requires quantity > 0 && price > 0.0 && RealtimeFrame(frame) !in run.world.seen
    ensures report.executionId == RealtimeFrame(frame) && report.executionPrice == Some(price)
    ensures TakenTo(run, Step(run, ReceiveNotice(NoticeOf(run.world.oms, client, frame, quantity, price))),
                    client, report, run.world.oms.states[client].filledQuantity + quantity)
  {
    var oms := run.world.oms;
    assert ConsistentOrder(oms, client, oms.states[client]);
    var notice := NoticeOf(oms, client, frame, quantity, price);
    assert RealtimeReport(oms, notice).Ok?;
    report := RealtimeReport(oms, notice).value;
    assert Step(run, ReceiveNotice(notice)) == AfterDelivery(run, report);
    RealtimeReportsAreAdapterBuilt(oms, notice);
    BuiltReportIsTaken(run, client, report, oms.states[client].filledQuantity + quantity);
  }

  function RowOf(oms: Oms, client: string, cumulative: int, average: real): Row
    requires client in oms.states
  {
    Row(oms.states[client].brokerOrderId, Some(cumulative), Some(average))
  }

  /** A response of one row yields the one report of that row. */
  lemma OneRowIsNormalised(oms: Oms, row: Row, context: RecoveryContext, report: ExecutionReport)
    requires row.Row? && ContextForOrder(oms, row.orderNumber) == Ok(context)
    requires RowReport(row, context) == Ok(Some(report))
    ensures NormalizedReports(Some([row]), ContextsOf(oms)) == Ok([report])
  {
    var source := ContextsOf(oms);
    var begun := OpenOrder(NO_ROWS, row.orderNumber, source).value;
    assert CurrentContext(begun, row.orderNumber) == context;
    var shadow := Advanced(begun, report, row.average);
    assert shadow.reports == [report];
    assert AfterRow(NO_ROWS, row, source) == Ok(shadow);
    assert [row][..0] == [];
    assert Normalized([row], source) == AfterRow(NO_ROWS, row, source);
  }

  lemma RowOfOpenOrder(oms: Oms, client: string, cumulative: int, average: real) returns (report: ExecutionReport)
    requires Consistent(oms) && OpenTo(oms, client, cumulative) && average > 0.0
    requires var state := oms.states[client];
             DeltaExecutionPrice(cumulative, average, state.filledQuantity, state.averagePrice).Ok?
    ensures var row := RowOf(oms, client, cumulative, average);
            && ContextForOrder(oms, row.orderNumber).Ok?
            && RowReport(row, ContextForOrder(oms, row.orderNumber).value) == Ok(Some(report))
    ensures AdapterBuilt(oms, report) && report.clientOrderId == client
    ensures report.brokerOrderId == oms.states[client].brokerOrderId
    ensures report.executionId == RestSnapshot(report.brokerOrderId, cumulative, average)
    ensures report.filledQuantity == cumulative - oms.states[client].filledQuantity
    ensures report.remainingQuantity == oms.states[client].orderQuantity - cumulative
  {
    assert ConsistentOrder(oms, client, oms.states[client]);
    var row := RowOf(oms, client, cumulative, average);
    var context := ContextForOrder(oms, row.orderNumber).value;
    report := RowReport(row, context).value.value;
    RowReportIsAdapterBuilt(oms, row, context);
  }

  lemma OneReportBatch(run: Run, report: ExecutionReport)
    requires Sound(run.world)
    ensures AfterBatch(run, [report]) == AfterDelivery(run, report)
  {
    assert [report][..0] == [];
    assert SettleAll(run.world, []).result.Ok?;
  }

  lemma OneReportResponse(run: Run, response: Option<seq<Row>>, report: ExecutionReport)
    requires Sound(run.world) && NormalizedReports(response, ContextsOf(run.world.oms)) == Ok([report])
    ensures Step(run, RecoverResponse(response)) == AfterDelivery(run, report)
  {
    OneReportBatch(run, report);
  }

  lemma RowIsTaken(run: Run, client: string, cumulative: int, average: real) returns (report: ExecutionReport)
    requires Invariant(run) && OpenTo(run.world.oms, client, cumulative) && average > 0.0
    requires var state := run.world.oms.states[client];
             DeltaExecutionPrice(cumulative, average, state.filledQuantity, state.averagePrice).Ok?
    ensures report.executionId.RestSnapshot? && report.executionId.cumulative == cumulative
    ensures TakenTo(run, Step(run, RecoverResponse(Some([RowOf(run.world.oms, client, cumulative, average)]))),
                    client, report, cumulative)
  {
    var oms := run.world.oms;
    var row := RowOf(oms, client, cumulative, average);
    report := RowOfOpenOrder(oms, client, cumulative, average);
    OpenReportIsTaken(run, client, cumulative, report);
    OneRowIsNormalised(oms, row, ContextForOrder(oms, row.orderNumber).value, report);
    OneReportResponse(run, Some([row]), report);
  }

  /** A snapshot that advances an open order has not been seen. */
  lemma OpenReportIsTaken(run: Run, client: string, cumulative: int, report: ExecutionReport)
    requires Invariant(run) && OpenTo(run.world.oms, client, cumulative)
    requires AdapterBuilt(run.world.oms, report) && report.clientOrderId == client
    requires report.brokerOrderId == run.world.oms.states[client].brokerOrderId
    requires report.executionId.RestSnapshot? && report.executionId.cumulative == cumulative
    requires report.executionId.order == report.brokerOrderId
    requires report.filledQuantity == cumulative - run.world.oms.states[client].filledQuantity
    requires report.remainingQuantity == run.world.oms.states[client].orderQuantity - cumulative
    ensures TakenTo(run, AfterDelivery(run, report), client, report, cumulative)
  {
    SnapshotIsNew(run.world, client, report);
    BuiltReportIsTaken(run, client, report, cumulative);
  }

  lemma SnapshotIsNew(w: World, client: string, report: ExecutionReport)
    requires Sound(w) && SnapshotsBehind(w) && client in w.oms.states && Bound(w.oms.states[client])
    requires report.executionId.RestSnapshot? && report.executionId.order == w.oms.states[client].brokerOrderId
    requires report.executionId.cumulative > w.oms.states[client].filledQuantity
    ensures report.executionId !in w.seen
  {
    assert ConsistentOrder(w.oms, client, w.oms.states[client]);
  }

  /** The only fill of an order, told of by a snapshot and then by its own notice. */
  lemma NoticeAfterSnapshotIsLate(fill: TrueFill, client: string, told: seq<ExecutionReport>,
                                  snapshot: ExecutionReport, notice: ExecutionReport)
    requires fill.quantity > 0 && snapshot.clientOrderId == client == notice.clientOrderId
    requires snapshot.executionId.RestSnapshot? && snapshot.executionId.cumulative == fill.quantity
    requires notice.executionId == RealtimeFrame(fill.frame) && notice.filledQuantity == fill.quantity
    ensures TellsTheTruth([fill], snapshot) && TellsTheTruth([fill], notice)
    ensures Late([fill], client, told + [snapshot], notice)
  {
    var fills := [fill];
    assert fills[..0] == [] && fills[..1] == fills && Sum(fills[..1]) == fill.quantity;
    assert fills[0] == TrueFill(fill.frame, notice.filledQuantity);
    assert UpTo(fills, 0) == fill.quantity;
    assert (told + [snapshot])[..|told|] == told;
    assert 0 in Witnesses(fills, client, snapshot) && 0 in Witnessed(fills, client, told + [snapshot]);
    assert 0 in Witnesses(fills, client, notice);
  }

  lemma LateNoticeIsTaken(run: Run, recovered: Run, client: string, snapshot: ExecutionReport,
                          frame: string, quantity: int, price: real)
    returns (notice: ExecutionReport)
    requires client in run.world.oms.states && run.world.oms.states[client].filledQuantity == 0
    requires quantity > 0 && price > 0.0 && OpenTo(run.world.oms, client, 2 * quantity)
    requires RealtimeFrame(frame) !in run.world.seen
    requires Invariant(recovered) && TakenTo(run, recovered, client, snapshot, quantity)
    requires snapshot.executionId.RestSnapshot?
    ensures notice.executionId == RealtimeFrame(frame)
    ensures TakenTo(recovered,
                    Step(recovered, ReceiveNotice(NoticeOf(recovered.world.oms, client, frame, quantity, price))),
                    client, notice, 2 * quantity)
  {
    notice := NoticeIsTaken(recovered, client, frame, quantity, price);
  }

  /**
    A late notice counts a fill twice. Of an open order that has not filled, the broker fills `quantity`;
    a snapshot of it is recovered first, and then the notice of the very same fill arrives. Both tell the
    truth, both are settled, and the OMS stands at twice what there is.
   */
  lemma LateNoticeIsCountedTwice(run: Run, client: string, frame: string, quantity: int, price: real)
    returns (snapshot: ExecutionReport, notice: ExecutionReport)
    requires Invariant(run) && client in run.world.oms.states && run.world.oms.states[client].filledQuantity == 0
    requires quantity > 0 && price > 0.0 && OpenTo(run.world.oms, client, 2 * quantity)
    requires RealtimeFrame(frame) !in run.world.seen
    ensures var fills := [TrueFill(frame, quantity)];
            var recovered := Step(run, RecoverResponse(Some([RowOf(run.world.oms, client, quantity, price)])));
            && Invariant(recovered) && client in recovered.world.oms.states
            && var event := ReceiveNotice(NoticeOf(recovered.world.oms, client, frame, quantity, price));
               var after := Step(recovered, event);
               && client in after.world.oms.states && after.world.oms.states[client].filledQuantity == 2 * quantity
               && after.settled == run.settled + [snapshot] + [notice]
               && TellsTheTruth(fills, snapshot) && TellsTheTruth(fills, notice)
               && Late(fills, client, run.settled + [snapshot], notice)
  {
    var response := RecoverResponse(Some([RowOf(run.world.oms, client, quantity, price)]));
    snapshot := RowIsTaken(run, client, quantity, price);
    StepKeepsInvariant(run, response);
    notice := LateNoticeIsTaken(run, Step(run, response), client, snapshot, frame, quantity, price);
    NoticeAfterSnapshotIsLate(TrueFill(frame, quantity), client, run.settled, snapshot, notice);
  }

  /** Two fills, 2 and 1, of which the second is noticed before a snapshot of the first alone. */
  lemma SnapshotAfterNoticeIsOutdated(fills: seq<TrueFill>, client: string, told: seq<ExecutionReport>,
                                      notice: ExecutionReport, snapshot: ExecutionReport)
    requires |fills| == 2 && fills[0].quantity == 2 && fills[1].quantity == 1
    requires snapshot.clientOrderId == client == notice.clientOrderId
    requires snapshot.executionId.RestSnapshot? && snapshot.executionId.cumulative == 2
    requires notice.executionId == RealtimeFrame(fills[1].frame) && notice.filledQuantity == 1
    ensures TellsTheTruth(fills, notice) && TellsTheTruth(fills, snapshot)
    ensures Outdated(fills, client, told + [notice], snapshot)
  {
    assert fills[..1] == [fills[0]] && fills[..1][..0] == [] && fills[..2] == fills;
    assert Sum(fills[..1]) == 2;
    assert fills[..|fills| - 1] == fills[..1];
    assert Sum(fills) == Sum(fills[..1]) + fills[1].quantity;
    assert UpTo(fills, 1) == 3;
    assert fills[1] == TrueFill(fills[1].frame, notice.filledQuantity);
    assert (told + [notice])[..|told|] == told;
    assert 1 in Witnesses(fills, client, notice) && 1 in Witnessed(fills, client, told + [notice]);
    assert 1 !in Witnesses(fills, client, snapshot);
  }

  /**
    An outdated snapshot forgets a fill. The broker fills 2 and then 1; the notice of the second fill
    arrives first, and then a snapshot that was taken before it. Both tell the truth, both are settled, and the
    OMS stands at 2 of 3, with the notice of the forgotten fill consumed.
   */
  lemma OutdatedSnapshotForgetsAFill(run: Run, client: string, first: string, second: string, price: real)
    returns (notice: ExecutionReport, snapshot: ExecutionReport)
    requires Invariant(run) && client in run.world.oms.states && run.world.oms.states[client].filledQuantity == 0
    requires price > 0.0 && OpenTo(run.world.oms, client, 3) && first != second
    requires RealtimeFrame(second) !in run.world.seen
    ensures var fills := [TrueFill(first, 2), TrueFill(second, 1)];
            var noticed := Step(run, ReceiveNotice(NoticeOf(run.world.oms, client, second, 1, price)));
            && Invariant(noticed) && client in noticed.world.oms.states
            && var after := Step(noticed, RecoverResponse(Some([RowOf(noticed.world.oms, client, 2, price)])));
               && client in after.world.oms.states && after.world.oms.states[client].filledQuantity == 2
               && RealtimeFrame(second) in after.world.seen
               && after.settled == run.settled + [notice] + [snapshot]
               && TellsTheTruth(fills, notice) && TellsTheTruth(fills, snapshot)
               && Outdated(fills, client, run.settled + [notice], snapshot)
  {
    var event := ReceiveNotice(NoticeOf(run.world.oms, client, second, 1, price));
    notice := NoticeIsTaken(run, client, second, 1, price);
    StepKeepsInvariant(run, event);
    var noticed := Step(run, event);
    assert OpenTo(noticed.world.oms, client, 2);
    snapshot := RowIsTaken(noticed, client, 2, price);
    SnapshotAfterNoticeIsOutdated([TrueFill(first, 2), TrueFill(second, 1)], client, run.settled, notice, snapshot);
  }

  /** An order that both can happen to: any route that the broker accepts opens one. */
  lemma AcceptedOrderIsOpen(instrumentId: string, events: seq<Event>, command: BrokerOrderCommand, reply: BrokerReply)
    requires var route := Route(Reached(instrumentId, events).world.oms, command, true, reply);
             route.result.Ok? && route.result.value.accepted
    ensures var run := Step(Reached(instrumentId, events), RouteOrder(command, true, reply));
            && Invariant(run)
            && command.clientOrderId in run.world.oms.states
            && run.world.oms.states[command.clientOrderId].filledQuantity == 0
            && OpenTo(run.world.oms, command.clientOrderId, command.quantity)
  {
    var run := Reached(instrumentId, events);
    StepKeepsInvariant(run, RouteOrder(command, true, reply));
    AcceptedRouteBinds(run.world.oms, command, true, reply);
    var after := Step(run, RouteOrder(command, true, reply)).world.oms;
    assert ConsistentOrder(after, command.clientOrderId, after.states[command.clientOrderId]);
  }

  /** An order that counts more than there is counts more than has been witnessed. */
  lemma OverfilledCountsMore(run: Run, client: string, fills: seq<TrueFill>)
    requires Invariant(run) && Proper(fills) && client in run.world.oms.states
    requires run.world.oms.states[client].filledQuantity > Sum(fills)
    ensures !NeverCountsMore(fills, client, run.settled)
  {
    MeasureIsWithinSum(fills, Witnessed(fills, client, run.settled));
    assert OrderSettled(run.settled, client, run.world.oms.states[client]);
  }

  lemma RouteOpensOrder(instrumentId: string, command: BrokerOrderCommand, reply: BrokerReply)
    requires Route(EMPTY, command, true, reply).result.Ok? && Route(EMPTY, command, true, reply).result.value.accepted
    ensures var run := Reached(instrumentId, [RouteOrder(command, true, reply)]);
            && run.settled == [] && run.world.seen == {}
            && OpenTo(run.world.oms, command.clientOrderId, command.quantity)
            && run.world.oms.states[command.clientOrderId].filledQuantity == 0
  {
    assert Reached(instrumentId, []) == Start(instrumentId);
    AcceptedOrderIsOpen(instrumentId, [], command, reply);
    ReachedOneMore(instrumentId, [], RouteOrder(command, true, reply));
    assert [] + [RouteOrder(command, true, reply)] == [RouteOrder(command, true, reply)];
  }

  lemma ReachedTwoMore(instrumentId: string, events: seq<Event>, first: Event, second: Event)
    ensures var run := Reached(instrumentId, events);
            && Invariant(Step(run, first))
            && Reached(instrumentId, events + [first] + [second]) == Step(Step(run, first), second)
  {
    ReachedOneMore(instrumentId, events, first);
    ReachedOneMore(instrumentId, events + [first], second);
  }

  lemma TwoAreTruthful(fills: seq<TrueFill>, client: string, first: ExecutionReport, second: ExecutionReport)
    requires Proper(fills) && TellsTheTruth(fills, first) && TellsTheTruth(fills, second)
    ensures Truthful(fills, client, [] + [first] + [second])
  {
  }

  lemma DoubleCountIsReached(instrumentId: string, begun: seq<Event>, client: string,
                             frame: string, quantity: int, price: real)
    returns (events: seq<Event>)
    requires var run := Reached(instrumentId, begun);
             && run.settled == [] && run.world.seen == {}
             && OpenTo(run.world.oms, client, 2 * quantity) && run.world.oms.states[client].filledQuantity == 0
    requires quantity > 0 && price > 0.0
    ensures var run := Reached(instrumentId, events);
            && Truthful([TrueFill(frame, quantity)], client, run.settled)
            && client in run.world.oms.states && run.world.oms.states[client].filledQuantity == 2 * quantity
  {
    var run := Reached(instrumentId, begun);
    var first, second := LateNoticeIsCountedTwice(run, client, frame, quantity, price);
    TwoAreTruthful([TrueFill(frame, quantity)], client, first, second);
    var response := RecoverResponse(Some([RowOf(run.world.oms, client, quantity, price)]));
    var notice := ReceiveNotice(NoticeOf(Step(run, response).world.oms, client, frame, quantity, price));
    events := begun + [response] + [notice];
    ReachedTwoMore(instrumentId, begun, response, notice);
  }

  /**
    The late notice happens from the very start: one accepted order, one fill of it, recovered and then
    noticed. Every report tells the truth, and the OMS counts the fill twice.
   */
  lemma DoubleCountIsReachable(instrumentId: string, command: BrokerOrderCommand, reply: BrokerReply,
                               frame: string, quantity: int, price: real)
    returns (events: seq<Event>)
    requires Route(EMPTY, command, true, reply).result.Ok? && Route(EMPTY, command, true, reply).result.value.accepted
    requires 0 < 2 * quantity <= command.quantity && price > 0.0
    ensures var run, fills := Reached(instrumentId, events), [TrueFill(frame, quantity)];
            && Truthful(fills, command.clientOrderId, run.settled)
            && command.clientOrderId in run.world.oms.states
            && run.world.oms.states[command.clientOrderId].filledQuantity == 2 * Sum(fills)
            && !NeverCountsMore(fills, command.clientOrderId, run.settled)
  {
    var fills := [TrueFill(frame, quantity)];
    assert fills[..0] == [] && Sum(fills) == quantity;
    var begun := [RouteOrder(command, true, reply)];
    RouteOpensOrder(instrumentId, command, reply);
    events := DoubleCountIsReached(instrumentId, begun, command.clientOrderId, frame, quantity, price);
    OverfilledCountsMore(Reached(instrumentId, events), command.clientOrderId, fills);
  }
}
