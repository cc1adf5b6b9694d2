/** What a recovery means in terms of the broker's rows, without the adapter's shadow. */
module RecoveryAgreement {
  import opened Contracts
  import opened OrderStates
  import opened LivePosition
  import opened Settlement
  import opened ExecutionReports
  import opened RecoveryService

  predicate Mentions(rows: seq<Row>, order: string) {
    exists row :: row in rows && row.Row? && row.orderNumber == order
  }

  /** The cumulative quantity in the last row of an order, or `base` if no row names it. */
  function LastCumulative(rows: seq<Row>, order: string, base: int): int {
    if rows == [] then base
    else
      var last := rows[|rows| - 1];
      if last.Row? && last.orderNumber == order && last.cumulative.Some? then last.cumulative.value
      else LastCumulative(rows[..|rows| - 1], order, base)
  }

  /** The average in the last row that took an order beyond all its earlier rows. */
  function LastAdvancingAverage(rows: seq<Row>, order: string, base: int, baseAverage: Option<real>): Option<real> {
    if rows == [] then baseAverage
    else
      var front, last := rows[..|rows| - 1], rows[|rows| - 1];
      if last.Row? && last.orderNumber == order && last.cumulative.Some? &&
         last.cumulative.value > LastCumulative(front, order, base)
      then last.average
      else LastAdvancingAverage(front, order, base, baseAverage)
  }

  /** The shadow of an order is its last row, and each of its rows lies between the start and the shadow. */
  ghost predicate ShadowIsLastRow(shadow: Shadow, rows: seq<Row>, order: string)
    requires ShadowKeys(shadow) && order in shadow.contexts
  {
    var base := shadow.contexts[order];
    && shadow.cumulative[order] == LastCumulative(rows, order, base.priorFilledQuantity)
    && shadow.average[order]
       == LastAdvancingAverage(rows, order, base.priorFilledQuantity, base.priorAveragePrice)
  }

  ghost predicate RowInRange(shadow: Shadow, row: Row)
    requires ShadowKeys(shadow)
  {
    && row.Row? && row.orderNumber in shadow.contexts && row.cumulative.Some?
    && shadow.contexts[row.orderNumber].priorFilledQuantity <= row.cumulative.value
       <= shadow.cumulative[row.orderNumber]
  }

  ghost predicate ReadsRows(shadow: Shadow, rows: seq<Row>) {
    && ShadowKeys(shadow)
    && (forall order :: order in shadow.contexts ==> Mentions(rows, order) && ShadowIsLastRow(shadow, rows, order))
    && (forall row :: row in rows ==> RowInRange(shadow, row))
  }

  lemma {:induction false} NormalizedReadsRows(oms: Oms, rows: seq<Row>)
    requires Consistent(oms) && Normalized(rows, ContextsOf(oms)).Ok?
    ensures ReadsRows(Normalized(rows, ContextsOf(oms)).value, rows)
  {
    if rows != [] {
      var front, row := rows[..|rows| - 1], rows[|rows| - 1];
      assert rows == front + [row];
      var before := Normalized(front, ContextsOf(oms)).value;
      assert Normalized(rows, ContextsOf(oms)) == AfterRow(before, row, ContextsOf(oms));
      NormalizedReadsRows(oms, front);
      NormalizedShadowsOms(oms, front);
      NextRowReadsRows(oms, before, front, row);
    }
  }

  lemma NextRowReadsRows(oms: Oms, shadow: Shadow, front: seq<Row>, row: Row)
    requires Consistent(oms) && ShadowsOms(oms, shadow) && ReadsRows(shadow, front)
    requires AfterRow(shadow, row, ContextsOf(oms)).Ok?
    ensures ReadsRows(AfterRow(shadow, row, ContextsOf(oms)).value, front + [row])
  {
    BeginningShadowsOms(oms, shadow, row.orderNumber);
    BeginningReadsRows(oms, shadow, front, row.orderNumber);
    KnownRowReadsRows(oms, OpenOrder(shadow, row.orderNumber, ContextsOf(oms)).value, front, row);
  }

  /** `shadow` has read `front`, and has possibly opened one more order. */
  ghost predicate AboutToRead(shadow: Shadow, front: seq<Row>, order: string) {
    && ShadowKeys(shadow)
    && order in shadow.contexts
    && (forall other :: other in shadow.contexts ==> ShadowIsLastRow(shadow, front, other))
    && (forall other :: other in shadow.contexts && other != order ==> Mentions(front, other))
    && (forall earlier :: earlier in front ==> RowInRange(shadow, earlier))
  }

  lemma BeginningReadsRows(oms: Oms, shadow: Shadow, front: seq<Row>, order: string)
    requires ReadsRows(shadow, front)
    requires OpenOrder(shadow, order, ContextsOf(oms)).Ok?
    ensures AboutToRead(OpenOrder(shadow, order, ContextsOf(oms)).value, front, order)
  {
    var begun := OpenOrder(shadow, order, ContextsOf(oms)).value;
    forall other | other in begun.contexts
      ensures ShadowIsLastRow(begun, front, other)
    {
      if other in shadow.contexts {
        assert ShadowIsLastRow(shadow, front, other);
      } else {
        var base := begun.contexts[other];
        UnmentionedKeepsBase(front, other, base.priorFilledQuantity, base.priorAveragePrice, shadow);
      }
    }
    forall earlier | earlier in front
      ensures RowInRange(begun, earlier)
    {
      assert RowInRange(shadow, earlier);
    }
  }

  lemma {:induction false} UnmentionedKeepsBase(
    rows: seq<Row>, order: string, base: int, baseAverage: Option<real>, shadow: Shadow)
    requires ShadowKeys(shadow) && order !in shadow.contexts
    requires forall row :: row in rows ==> RowInRange(shadow, row)
    ensures LastCumulative(rows, order, base) == base
    ensures LastAdvancingAverage(rows, order, base, baseAverage) == baseAverage
  {
    if rows != [] {
      assert RowInRange(shadow, rows[|rows| - 1]);
      UnmentionedKeepsBase(rows[..|rows| - 1], order, base, baseAverage, shadow);
    }
  }

  lemma KnownRowReadsRows(oms: Oms, shadow: Shadow, front: seq<Row>, row: Row)
    requires ShadowsOms(oms, shadow)
    requires row.Row? && AboutToRead(shadow, front, row.orderNumber)
    requires AfterKnownRow(shadow, row).Ok?
    ensures ReadsRows(AfterKnownRow(shadow, row).value, front + [row])
  {
    assert ShadowsOrder(oms, shadow, row.orderNumber);
    KnownRowReaches(shadow, row);
    RowIsRead(shadow, AfterKnownRow(shadow, row).value, front, row);
  }

  /** `after` is the shadow that has also seen `row`. */
  ghost predicate Reaches(shadow: Shadow, after: Shadow, row: Row) {
    && ShadowKeys(shadow) && ShadowKeys(after) && after.contexts == shadow.contexts
    && row.Row? && row.orderNumber in shadow.contexts && row.cumulative.Some?
    && shadow.contexts[row.orderNumber].priorFilledQuantity <= shadow.cumulative[row.orderNumber]
       <= row.cumulative.value
    && after.cumulative == shadow.cumulative[row.orderNumber := row.cumulative.value]
    && after.average == (if row.cumulative.value > shadow.cumulative[row.orderNumber]
                         then shadow.average[row.orderNumber := row.average] else shadow.average)
  }

  lemma RowIsRead(shadow: Shadow, after: Shadow, front: seq<Row>, row: Row)
    requires Reaches(shadow, after, row) && AboutToRead(shadow, front, row.orderNumber)
    ensures ReadsRows(after, front + [row])
  {
    var rows := front + [row];
    forall order | order in after.contexts
      ensures Mentions(rows, order) && ShadowIsLastRow(after, rows, order)
    {
      assert ShadowIsLastRow(shadow, front, order);
      LastRowIsRead(shadow, after, front, row, order);
      if order == row.orderNumber {
        assert row in rows;
      } else {
        var named :| named in front && named.Row? && named.orderNumber == order;
        assert named in rows;
      }
    }
    forall earlier | earlier in rows
      ensures RowInRange(after, earlier)
    {
      assert earlier == row || RowInRange(shadow, earlier);
    }
  }

  lemma LastRowIsRead(shadow: Shadow, after: Shadow, front: seq<Row>, row: Row, order: string)
    requires Reaches(shadow, after, row) && order in shadow.contexts && ShadowIsLastRow(shadow, front, order)
    ensures ShadowIsLastRow(after, front + [row], order)
  {
    var rows := front + [row];
    assert rows[..|rows| - 1] == front && rows[|rows| - 1] == row;
  }

  /** An accepted row takes its order's shadow to exactly its own quantity. */
  lemma KnownRowReaches(shadow: Shadow, row: Row)
    requires ShadowKeys(shadow) && row.Row? && row.orderNumber in shadow.contexts
    requires shadow.contexts[row.orderNumber].priorFilledQuantity <= shadow.cumulative[row.orderNumber]
    requires AfterKnownRow(shadow, row).Ok?
    ensures Reaches(shadow, AfterKnownRow(shadow, row).value, row)
  {
    KnownRowReports(shadow, row);
  }

  /**
    Recovery agrees with the broker. If every row names its order's current broker id and the
    order's command fits, any accepted response settles without a refusal, and leaves each order it
    names at exactly its last row's cumulative quantity and at the average of its last advancing
    row; every other order is left alone.
   */
  lemma RecoveryAgreesWithBroker(w: World, rows: seq<Row>)
    requires Sound(w) && SnapshotsBehind(w)
    requires NormalizedReports(Some(rows), ContextsOf(w.oms)).Ok?
    requires forall row :: row in rows && row.Row? ==> Settleable(w, row.orderNumber)
    ensures Recover(w, Some(rows)).result.Ok?
    ensures var after := Recover(w, Some(rows)).world;
            && SameOrders(w, after)
            && (forall row :: row in rows ==> row.Row? && HoldsLastRow(w, after, rows, row.orderNumber))
            && (forall client :: client in w.oms.states && !Names(w, rows, client) ==>
                  after.oms.states[client] == w.oms.states[client])
  {
    var shadow := Normalized(rows, ContextsOf(w.oms)).value;
    var after := Recover(w, Some(rows)).world;
    RecoverySettles(w, rows);
    NormalizedShadowsOms(w.oms, rows);
    NormalizedReadsRows(w.oms, rows);
    forall report | report in shadow.reports
      ensures Settleable(w, report.brokerOrderId)
    {
      assert ReportOfBatch(w.oms, shadow, report);
      assert Mentions(rows, report.brokerOrderId);
    }
    forall row | row in rows
      ensures row.Row? && HoldsLastRow(w, after, rows, row.orderNumber)
    {
      assert RowInRange(shadow, row);
      ShadowedOrderHoldsLastRow(w, after, shadow, rows, row.orderNumber);
    }
    forall client | client in w.oms.states && !Names(w, rows, client)
      ensures after.oms.states[client] == w.oms.states[client]
    {
      assert !Touched(w, shadow, client);
    }
  }

  /** The OMS holds an order's last row: its quantity, and the average of its last advance. */
  ghost predicate HoldsLastRow(w: World, after: World, rows: seq<Row>, order: string)
    requires SameOrders(w, after)
  {
    && order in w.oms.brokerToClient && w.oms.brokerToClient[order] in w.oms.states
    && var before := w.oms.states[w.oms.brokerToClient[order]];
       var now := after.oms.states[w.oms.brokerToClient[order]];
       && now.filledQuantity == LastCumulative(rows, order, before.filledQuantity)
       && now.averagePrice == LastAdvancingAverage(rows, order, before.filledQuantity, before.averagePrice)
  }

  ghost predicate Names(w: World, rows: seq<Row>, client: string) {
    exists order :: Mentions(rows, order) && order in w.oms.brokerToClient && w.oms.brokerToClient[order] == client
  }

  lemma ShadowedOrderHoldsLastRow(w: World, after: World, shadow: Shadow, rows: seq<Row>, order: string)
    requires Sound(w) && ShadowsOms(w.oms, shadow) && ReadsRows(shadow, rows) && Tracks(w, after, shadow)
    requires order in shadow.contexts && Settleable(w, order)
    ensures HoldsLastRow(w, after, rows, order)
  {
    assert ShadowsOrder(w.oms, shadow, order);
    ContextIsOwn(w.oms, order);
    assert ShadowIsLastRow(shadow, rows, order);
    assert TracksOrder(w, after, shadow, order);
  }

  /** The agreement holds at every point of the batch, not only at its end. */
  lemma {:induction false} PrefixAccepted(rows: seq<Row>, k: nat, source: ContextSource)
    requires k <= |rows| && Normalized(rows, source).Ok?
    ensures Normalized(rows[..k], source).Ok?
    ensures Normalized(rows[..k], source).value.reports <= Normalized(rows, source).value.reports
    decreases |rows|
  {
    if k == |rows| {
      assert rows[..k] == rows;
    } else {
      var front := rows[..|rows| - 1];
      assert front[..k] == rows[..k];
      PrefixAccepted(front, k, source);
      var before := Normalized(front, source).value;
      var row := rows[|rows| - 1];
      KnownRowReports(OpenOrder(before, row.orderNumber, source).value, row);
    }
  }

  /**
    While a batch is being settled the OMS equals the adapter's shadow: after the reports of any
    prefix of the rows, each named order stands at that prefix's last row.
   */
  lemma ShadowEqualsOmsThroughout(w: World, rows: seq<Row>, k: nat)
    requires Sound(w) && SnapshotsBehind(w) && k <= |rows|
    requires NormalizedReports(Some(rows), ContextsOf(w.oms)).Ok?
    requires forall row :: row in rows && row.Row? ==> Settleable(w, row.orderNumber)
    ensures Normalized(rows[..k], ContextsOf(w.oms)).Ok?
    ensures var batch := Normalized(rows, ContextsOf(w.oms)).value.reports;
            var shadow := Normalized(rows[..k], ContextsOf(w.oms)).value;
            && shadow.reports <= batch
            && SettleAll(w, shadow.reports).result.Ok?
            && Tracks(w, SettleAll(w, shadow.reports).world, shadow)
            && ReadsRows(shadow, rows[..k])
  {
    PrefixAccepted(rows, k, ContextsOf(w.oms));
    var front := rows[..k];
    assert forall row :: row in front ==> row in rows;
    RecoveryAgreesWithBroker(w, front);
    RecoverySettles(w, front);
    NormalizedReadsRows(w.oms, front);
  }

  // ----- recovering again -----

  /** No row of the response is ahead of the OMS. */
  ghost predicate NoRowAhead(oms: Oms, rows: seq<Row>) {
    forall row :: row in rows && row.Row? && row.cumulative.Some? &&
                  row.orderNumber in oms.brokerToClient && oms.brokerToClient[row.orderNumber] in oms.states ==>
      row.cumulative.value <= oms.states[oms.brokerToClient[row.orderNumber]].filledQuantity
  }

  /** A row that is not ahead of the OMS cannot advance its shadow, which starts there. */
  lemma RowNotAheadReportsNothing(oms: Oms, shadow: Shadow, row: Row)
    requires ShadowsOms(oms, shadow) && row.Row? && row.orderNumber in shadow.contexts
    requires AfterKnownRow(shadow, row).Ok?
    requires row.cumulative.Some? ==> row.cumulative.value <= shadow.contexts[row.orderNumber].priorFilledQuantity
    ensures AfterKnownRow(shadow, row).value.reports == shadow.reports
  {
    assert ShadowsOrder(oms, shadow, row.orderNumber);
    KnownRowReports(shadow, row);
  }

  /** Whatever is accepted from rows that are not ahead of the OMS contains no report. */
  lemma {:induction false} NothingNewNothingReported(oms: Oms, rows: seq<Row>)
    requires Consistent(oms) && NoRowAhead(oms, rows)
    requires Normalized(rows, ContextsOf(oms)).Ok?
    ensures Normalized(rows, ContextsOf(oms)).value.reports == []
  {
    if rows != [] {
      var front, row := rows[..|rows| - 1], rows[|rows| - 1];
      assert forall earlier :: earlier in front ==> earlier in rows;
      NothingNewNothingReported(oms, front);
      NormalizedShadowsOms(oms, front);
      NextNothingReported(oms, Normalized(front, ContextsOf(oms)).value, rows, row);
    }
  }

  lemma NextNothingReported(oms: Oms, before: Shadow, rows: seq<Row>, row: Row)
    requires Consistent(oms) && NoRowAhead(oms, rows) && row in rows && ShadowsOms(oms, before)
    requires AfterRow(before, row, ContextsOf(oms)).Ok?
    ensures AfterRow(before, row, ContextsOf(oms)).value.reports == before.reports
  {
    var begun := OpenOrder(before, row.orderNumber, ContextsOf(oms)).value;
    BeginningShadowsOms(oms, before, row.orderNumber);
    assert ShadowsOrder(oms, begun, row.orderNumber);
    ContextIsOwn(oms, row.orderNumber);
    RowNotAheadReportsNothing(oms, begun, row);
  }

  /**
    Recovery is idempotent: once a response has been recovered, recovering it again either is
    refused before any settlement or settles nothing, and changes none of the three stores.
   */
  lemma RecoveringAgainChangesNothing(w: World, rows: seq<Row>)
    requires Sound(w) && SnapshotsBehind(w)
    requires Recover(w, Some(rows)).result.Ok?
    ensures var after := Recover(w, Some(rows)).world;
            var again := Recover(after, Some(rows));
            && again.world == after
            && (again.result.Ok? ==> again.result.value == [])
  {
    var shadow := Normalized(rows, ContextsOf(w.oms)).value;
    var after := Recover(w, Some(rows)).world;
    RecoverySettles(w, rows);
    NormalizedShadowsOms(w.oms, rows);
    NormalizedReadsRows(w.oms, rows);
    forall row | row in rows && row.Row? && row.cumulative.Some? && row.orderNumber in after.oms.brokerToClient
                 && after.oms.brokerToClient[row.orderNumber] in after.oms.states
      ensures row.cumulative.value <= after.oms.states[after.oms.brokerToClient[row.orderNumber]].filledQuantity
    {
      RecoveredRowIsNotAhead(w, after, shadow, rows, row);
    }
    if Normalized(rows, ContextsOf(after.oms)).Ok? {
      NothingNewNothingReported(after.oms, rows);
    }
  }

  lemma RecoveredRowIsNotAhead(w: World, after: World, shadow: Shadow, rows: seq<Row>, row: Row)
    requires Sound(w) && ShadowsOms(w.oms, shadow) && ReadsRows(shadow, rows) && Tracks(w, after, shadow)
    requires AllSettleable(w, shadow.reports)
    requires Normalized(rows, ContextsOf(w.oms)) == Ok(shadow)
    requires row in rows && row.Row? && row.cumulative.Some?
    ensures row.orderNumber in w.oms.brokerToClient && w.oms.brokerToClient[row.orderNumber] in after.oms.states
    ensures row.cumulative.value <= after.oms.states[w.oms.brokerToClient[row.orderNumber]].filledQuantity
  {
    var order := row.orderNumber;
    assert RowInRange(shadow, row);
    assert ShadowsOrder(w.oms, shadow, order);
    ContextIsOwn(w.oms, order);
    assert SameOrder(w.oms.states[w.oms.brokerToClient[order]], after.oms.states[w.oms.brokerToClient[order]]);
    if Settleable(w, order) {
      assert TracksOrder(w, after, shadow, order);
    } else {
      NoReportNoAdvance(w.oms, rows, order);
    }
  }

  /** An order that none of the reports is about stands where it started. */
  lemma {:induction false} NoReportNoAdvance(oms: Oms, rows: seq<Row>, order: string)
    requires Consistent(oms) && Normalized(rows, ContextsOf(oms)).Ok?
    requires order in Normalized(rows, ContextsOf(oms)).value.contexts
    requires forall report :: report in Normalized(rows, ContextsOf(oms)).value.reports ==>
               report.brokerOrderId != order
    ensures var shadow := Normalized(rows, ContextsOf(oms)).value;
            shadow.cumulative[order] == shadow.contexts[order].priorFilledQuantity
  {
    if rows != [] {
      var front, row := rows[..|rows| - 1], rows[|rows| - 1];
      var before := Normalized(front, ContextsOf(oms)).value;
      var begun := OpenOrder(before, row.orderNumber, ContextsOf(oms)).value;
      var after := Normalized(rows, ContextsOf(oms)).value;
      KnownRowReports(begun, row);
      forall report | report in before.reports
        ensures report.brokerOrderId != order
      {
        assert report in after.reports;
      }
      if order in before.contexts {
        NoReportNoAdvance(oms, front, order);
      }
      if after != begun {
        assert after.reports[|begun.reports|].brokerOrderId != order;
      }
    }
  }

  // ----- exactly when a response settles -----

  /** The row has a quantity beyond what the OMS has filled of the order it names. */
  predicate IsAhead(oms: Oms, row: Row) {
    && row.Row? && row.cumulative.Some?
    && row.orderNumber in oms.brokerToClient && oms.brokerToClient[row.orderNumber] in oms.states
    && row.cumulative.value > oms.states[oms.brokerToClient[row.orderNumber]].filledQuantity
  }

  lemma {:induction false} LastCumulativeIsOfARow(rows: seq<Row>, order: string, base: int) returns (row: Row)
    requires LastCumulative(rows, order, base) != base
    ensures row in rows && row.Row? && row.orderNumber == order
    ensures row.cumulative == Some(LastCumulative(rows, order, base))
  {
    var last := rows[|rows| - 1];
    if last.Row? && last.orderNumber == order && last.cumulative.Some? {
      return last;
    }
    row := LastCumulativeIsOfARow(rows[..|rows| - 1], order, base);
  }

  lemma ReportHasRowAhead(oms: Oms, shadow: Shadow, rows: seq<Row>, report: ExecutionReport) returns (row: Row)
    requires Consistent(oms) && ShadowsOms(oms, shadow) && ReadsRows(shadow, rows) && report in shadow.reports
    ensures row in rows && IsAhead(oms, row) && row.orderNumber == report.brokerOrderId
  {
    var order := report.brokerOrderId;
    assert ReportOfBatch(oms, shadow, report);
    assert ShadowsOrder(oms, shadow, order);
    ContextIsOwn(oms, order);
    assert ShadowIsLastRow(shadow, rows, order);
    row := LastCumulativeIsOfARow(rows, order, shadow.contexts[order].priorFilledQuantity);
  }

  lemma RowAheadHasReport(oms: Oms, shadow: Shadow, rows: seq<Row>, row: Row)
    requires Consistent(oms) && ShadowsOms(oms, shadow) && ReadsRows(shadow, rows)
    requires Normalized(rows, ContextsOf(oms)) == Ok(shadow)
    requires row in rows && IsAhead(oms, row)
    ensures exists report :: report in shadow.reports && report.brokerOrderId == row.orderNumber
  {
    var order := row.orderNumber;
    assert RowInRange(shadow, row);
    assert ShadowsOrder(oms, shadow, order);
    ContextIsOwn(oms, order);
    if forall report :: report in shadow.reports ==> report.brokerOrderId != order {
      NoReportNoAdvance(oms, rows, order);
      assert false;
    }
  }

  /**
    A response that normalisation accepts settles without a refusal if and only if every order that
    one of its rows finds ahead of the OMS is named by its current broker id and has a command that fits.
   */
  lemma AcceptedResponseSettlesExactly(w: World, rows: seq<Row>)
    requires Sound(w) && SnapshotsBehind(w)
    requires NormalizedReports(Some(rows), ContextsOf(w.oms)).Ok?
    ensures Recover(w, Some(rows)).result.Ok? <==>
              forall row :: row in rows && IsAhead(w.oms, row) ==> Settleable(w, row.orderNumber)
  {
    var shadow := Normalized(rows, ContextsOf(w.oms)).value;
    RecoverySettles(w, rows);
    NormalizedShadowsOms(w.oms, rows);
    NormalizedReadsRows(w.oms, rows);
    if AllSettleable(w, shadow.reports) {
      forall row | row in rows && IsAhead(w.oms, row)
        ensures Settleable(w, row.orderNumber)
      {
        RowAheadHasReport(w.oms, shadow, rows, row);
      }
    } else {
      var report :| report in shadow.reports && !Settleable(w, report.brokerOrderId);
      var row := ReportHasRowAhead(w.oms, shadow, rows, report);
    }
  }

  // ----- exactly when a response is accepted -----

  /** A row that advances its order has an average, and one that leaves a positive price to the advance. */
  predicate PricesAdvance(row: Row, cumulative: int, last: int, lastAverage: Option<real>) {
    && row.Row? && row.average.Some? && row.average.value > 0.0
    && (last > 0 ==>
          lastAverage.Some? && row.average.value * cumulative as real > lastAverage.value * last as real)
  }

  /**
    A row that can follow `earlier` rows: it names an open order, and its quantity lies between the last
    one known of that order, from the OMS or from an earlier row, and the quantity ordered.
   */
  predicate RowFits(oms: Oms, earlier: seq<Row>, row: Row) {
    && row.Row? && row.cumulative.Some?
    && var state := OpenOrderOf(oms, row.orderNumber);
       && state.Some?
       && var cumulative := row.cumulative.value;
          var last := LastCumulative(earlier, row.orderNumber, state.value.filledQuantity);
          var lastAverage := LastAdvancingAverage(
            earlier, row.orderNumber, state.value.filledQuantity, state.value.averagePrice);
          && last <= cumulative <= state.value.orderQuantity
          && (cumulative > last ==> PricesAdvance(row, cumulative, last, lastAverage))
  }

  lemma ContextOfOpenOrder(oms: Oms, order: string)
    requires Consistent(oms)
    ensures ContextForOrder(oms, order)
            == match OpenOrderOf(oms, order)
               case None => ContextForOrder(oms, order)
               case Some(state) => Ok(RecoveryContext(
                 state.clientOrderId, state.orderQuantity, state.filledQuantity, state.averagePrice))
    ensures ContextForOrder(oms, order).Ok? <==> OpenOrderOf(oms, order).Some?
  {
    if order in oms.brokerToClient {
      var client := oms.brokerToClient[order];
      assert ConsistentOrder(oms, client, oms.states[client]);
    }
  }

  lemma DeltaPriceIsPositive(cumulative: int, average: real, prior: int, priorAverage: real)
    requires 0 < prior < cumulative
    ensures DeltaExecutionPrice(cumulative, average, prior, Some(priorAverage)).Ok? <==>
              average * cumulative as real > priorAverage * prior as real
  {
    var gained := average * cumulative as real - priorAverage * prior as real;
    var delta := (cumulative - prior) as real;
    var price := gained / delta;
    assert price * delta == gained;
    if price > 0.0 {
      assert price * delta > 0.0;
    } else {
      assert -price * delta >= 0.0;
    }
  }

  /** A row is read exactly if it fits a context that stands at the order's last quantity. */
  lemma RowIsReadExactly(row: Row, context: RecoveryContext)
    requires row.Row? && row.orderNumber != "" && 0 <= context.priorFilledQuantity
    ensures RowReport(row, context).Ok? <==>
              && row.cumulative.Some?
              && context.priorFilledQuantity <= row.cumulative.value <= context.orderQuantity
              && (row.cumulative.value > context.priorFilledQuantity ==>
                    PricesAdvance(row, row.cumulative.value, context.priorFilledQuantity, context.priorAveragePrice))
  {
    if row.cumulative.Some? && row.average.Some? && context.priorAveragePrice.Some?
       && 0 < context.priorFilledQuantity < row.cumulative.value
    {
      DeltaPriceIsPositive(row.cumulative.value, row.average.value,
                           context.priorFilledQuantity, context.priorAveragePrice.value);
    }
  }

  lemma NextRowIsAcceptedExactly(oms: Oms, shadow: Shadow, earlier: seq<Row>, row: Row)
    requires Consistent(oms) && ShadowsOms(oms, shadow) && ReadsRows(shadow, earlier)
    ensures AfterRow(shadow, row, ContextsOf(oms)).Ok? <==> RowFits(oms, earlier, row)
  {
    if row.Row? && row.orderNumber != "" {
      var order := row.orderNumber;
      ContextOfOpenOrder(oms, order);
      assert order in shadow.contexts ==> ShadowsOrder(oms, shadow, order);
      if OpenOrderOf(oms, order).Some? {
        var begun := OpenOrder(shadow, order, ContextsOf(oms)).value;
        BeginningShadowsOms(oms, shadow, order);
        BeginningReadsRows(oms, shadow, earlier, order);
        KnownRowIsAcceptedExactly(oms, begun, earlier, row, OpenOrderOf(oms, order).value);
      }
    }
  }

  lemma KnownRowIsAcceptedExactly(oms: Oms, begun: Shadow, earlier: seq<Row>, row: Row, state: OrderState)
    requires Consistent(oms) && ShadowsOms(oms, begun) && row.Row? && AboutToRead(begun, earlier, row.orderNumber)
    requires OpenOrderOf(oms, row.orderNumber) == Some(state)
    ensures AfterKnownRow(begun, row).Ok? <==> RowFits(oms, earlier, row)
  {
    var order := row.orderNumber;
    ContextOfOpenOrder(oms, order);
    assert ShadowsOrder(oms, begun, order) && ShadowIsLastRow(begun, earlier, order);
    var context := CurrentContext(begun, order);
    assert context == RecoveryContext(
      state.clientOrderId, state.orderQuantity, LastCumulative(earlier, order, state.filledQuantity),
      LastAdvancingAverage(earlier, order, state.filledQuantity, state.averagePrice));
    RowIsReadExactly(row, context);
  }

  ghost predicate EachRowFits(oms: Oms, rows: seq<Row>) {
    forall k :: 0 <= k < |rows| ==> RowFits(oms, rows[..k], rows[k])
  }

  lemma OneMoreRowFits(oms: Oms, front: seq<Row>, row: Row)
    ensures EachRowFits(oms, front + [row]) <==> EachRowFits(oms, front) && RowFits(oms, front, row)
  {
    var rows := front + [row];
    assert forall k :: 0 <= k < |front| ==> rows[..k] == front[..k] && rows[k] == front[k];
    assert rows[..|front|] == front && rows[|front|] == row;
    if EachRowFits(oms, rows) {
      forall k | 0 <= k < |front|
        ensures RowFits(oms, front[..k], front[k])
      {
        assert RowFits(oms, rows[..k], rows[k]);
      }
      assert RowFits(oms, rows[..|front|], rows[|front|]);
    }
  }

  lemma {:induction false} RowsAreAcceptedExactly(oms: Oms, rows: seq<Row>)
    requires Consistent(oms)
    ensures Normalized(rows, ContextsOf(oms)).Ok? <==> EachRowFits(oms, rows)
  {
    if rows != [] {
      var front, row := rows[..|rows| - 1], rows[|rows| - 1];
      assert rows == front + [row];
      RowsAreAcceptedExactly(oms, front);
      OneMoreRowFits(oms, front, row);
      if Normalized(front, ContextsOf(oms)).Ok? {
        NormalizedShadowsOms(oms, front);
        NormalizedReadsRows(oms, front);
        NextRowIsAcceptedExactly(oms, Normalized(front, ContextsOf(oms)).value, front, row);
      }
    }
  }

  /**
    What normalisation accepts, from the OMS and the rows alone: a response is refused if and only if some
    row does not fit the rows before it.
   */
  lemma ResponseIsAcceptedExactly(oms: Oms, rows: seq<Row>)
    requires Consistent(oms)
    ensures NormalizedReports(Some(rows), ContextsOf(oms)).Ok? <==> EachRowFits(oms, rows)
  {
    RowsAreAcceptedExactly(oms, rows);
  }

  /** So recovery succeeds if and only if every row fits and every order found ahead of the OMS is settleable. */
  lemma RecoverySucceedsExactly(w: World, rows: seq<Row>)
    requires Sound(w) && SnapshotsBehind(w)
    ensures Recover(w, Some(rows)).result.Ok? <==>
              && EachRowFits(w.oms, rows)
              && (forall row :: row in rows && IsAhead(w.oms, row) ==> Settleable(w, row.orderNumber))
  {
    ResponseIsAcceptedExactly(w.oms, rows);
    if NormalizedReports(Some(rows), ContextsOf(w.oms)).Ok? {
      AcceptedResponseSettlesExactly(w, rows);
    }
  }

  // ----- without the precondition -----

  /** An order re-acknowledged under broker id `b`; its first id `a` still leads to it. */
  function Reacknowledged(command: BrokerOrderCommand, a: string, b: string): Oms {
    var client := command.clientOrderId;
    Oms(map[client := OrderState(client, ACKED, b, command.quantity, 0, Some(command), None)],
        map[a := client, b := client])
  }

  /**
    "The row names the order's current broker id" is needed. After a re-acknowledgement with another
    id, a row under the first id is still accepted by normalisation, but its report is refused.
   */
  lemma OldBrokerIdIsRefused(command: BrokerOrderCommand, a: string, b: string, average: real)
    requires command.clientOrderId != "" && command.quantity > 0 && a != "" && b != "" && a != b && average > 0.0
    ensures var oms := Reacknowledged(command, a, b);
            var w := World(oms, {}, Flat(command.instrumentId));
            var rows := [Row(a, Some(command.quantity), Some(average))];
            && Sound(w) && SnapshotsBehind(w)
            && NormalizedReports(Some(rows), ContextsOf(oms)).Ok?
            && Recover(w, Some(rows)) == BatchOutcome(w, Err(BROKER_ORDER_ID_MISMATCH))
  {
    var oms := Reacknowledged(command, a, b);
    var w := World(oms, {}, Flat(command.instrumentId));
    var row := Row(a, Some(command.quantity), Some(average));
    assert ConsistentOrder(oms, command.clientOrderId, oms.states[command.clientOrderId]);
    assert [row][..0] == [];
    assert Normalized([], ContextsOf(oms)) == Ok(NO_ROWS);
    var begun := OpenOrder(NO_ROWS, a, ContextsOf(oms)).value;
    KnownRowReports(begun, row);
    var reports := Normalized([row], ContextsOf(oms)).value.reports;
    assert |reports| == 1 && reports[..0] == [];
    assert SettleAll(w, []) == BatchOutcome(w, Ok([]));
  }
}
