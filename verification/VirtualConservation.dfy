/** What the simulated firm's bookkeeping conserves, per execution and over whole runs. */
module VirtualConservation {
  import opened Contracts
  import opened Ledger
  import opened VirtualAccounts

  /** What the account is worth with every position marked at `p`. */
  ghost function EquityAt(account: Account, p: real): real {
    account.balance + account.realised + Unrealised(account.positions, p)
  }

  /** Profit, realised or not, with every position marked at `p`. */
  ghost function ProfitAt(account: Account, p: real): real {
    account.realised + Unrealised(account.positions, p)
  }

  /** What the summary of the account reports. */
  function ReportedEquity(account: Account): real {
    account.balance + account.realised + account.unrealised
  }

  lemma RealisedLeavesBook(book: Amount, moved: Amount, gain: real, p: real)
    ensures Marked(Plus(book, Plus(moved, Amount(0, gain))), p)
            == Marked(book, p) + Marked(moved, p) - gain * MULTIPLIER
  {
    MarkedIsAdditive(book, Plus(moved, Amount(0, gain)), p);
    MarkedIsAdditive(moved, Amount(0, gain), p);
  }

  lemma ExecutionRealises(account: Account, execution: Execution)
    requires AfterExecution(account, execution).Ok?
    ensures var after := AfterExecution(account, execution).value;
            && after.realised == account.realised + Realised(account.positions, execution) * MULTIPLIER
            && after.balance == account.balance - execution.fee
            && Total(Book(after.positions))
               == Plus(Total(Book(account.positions)), EntryChange(account.positions, execution))
  {
    UpdateMovesBook(account.positions, execution);
  }

  /** An execution earns, at any mark, what its effective part earns from its own price on: netting loses nothing. */
  lemma ExecutionEarnsFromItsPrice(account: Account, execution: Execution, p: real)
    requires AfterExecution(account, execution).Ok?
    ensures var after := AfterExecution(account, execution).value;
            && ProfitAt(after, p) == ProfitAt(account, p) + Marked(Moved(account.positions, execution), p)
            && EquityAt(after, p)
               == EquityAt(account, p) + Marked(Moved(account.positions, execution), p) - execution.fee
  {
    ExecutionRealises(account, execution);
    RealisedLeavesBook(Total(Book(account.positions)), Moved(account.positions, execution),
                       Realised(account.positions, execution), p);
  }

  lemma NothingEarnedAtItsPrice(side: OrderSide, qty: int, price: real)
    ensures Marked(Traded(side, qty, price), price) == 0.0
  {
  }

  /** Marked at its own price, an execution costs its fee and nothing else, however it nets. */
  lemma ExecutionConservesEquity(account: Account, execution: Execution)
    requires AfterExecution(account, execution).Ok?
    ensures EquityAt(AfterExecution(account, execution).value, execution.price)
            == EquityAt(account, execution.price) - execution.fee
  {
    ExecutionEarnsFromItsPrice(account, execution, execution.price);
    NothingEarnedAtItsPrice(execution.side, Applied(account.positions, execution), execution.price);
  }

  /** An execution fails exactly if it would leave a position of quantity zero behind by adding. */
  lemma ExecutionFailsOn(account: Account, execution: Execution)
    ensures var held := Held(account.positions, execution.symbol, execution.side);
            AfterExecution(account, execution).Err? <==> Adds(held, execution.side) && held.qty + execution.qty == 0
  {
  }

  /** An executed order reports the equity it found, remarked at the execution price. */
  lemma OrderConservesEquity(account: Account, bid: real, ask: real, command: OrderCommand)
    ensures var (after, outcome) := AfterOrder(account, bid, ask, command);
            && (outcome.Executed? ==>
                  && outcome.report.price == (if command.side == BuySide then ask else bid) > 0.0
                  && ReportedEquity(after) == EquityAt(account, outcome.report.price))
            && (!outcome.Executed? ==> after == account)
  {
    var (after, outcome) := AfterOrder(account, bid, ask, command);
    if outcome.Executed? {
      ExecutionConservesEquity(account, outcome.report);
    }
  }

  /** What a buyer pays and a seller gets. */
  function Quote(bid: real, ask: real, side: OrderSide): real {
    if side == BuySide then ask else bid
  }

  /** An order is declined exactly if the free margin does not cover its own price, or there is no quote. */
  predicate DeclinesOrder(account: Account, bid: real, ask: real, command: OrderCommand) {
    || account.freeMargin < MULTIPLIER * (command.price * command.qty as real)
    || Quote(bid, ask, command.side) <= 0.0
  }

  /** The new quantity would be zero although nothing is closed. */
  predicate AddsUpToZero(account: Account, command: OrderCommand) {
    if command.symbol !in account.positions then command.qty == 0
    else
      var held := account.positions[command.symbol];
      (held.qty == 0 || held.side == command.side) && held.qty + command.qty == 0
  }

  /**
    An order is declined, fails, or is executed as commanded: the same symbol and side, in full, at its quote and
    without a fee. The positions in other symbols and the balance are what they were.
   */
  lemma OrderIsExecutedAsCommanded(account: Account, bid: real, ask: real, command: OrderCommand)
    ensures var (after, outcome) := AfterOrder(account, bid, ask, command);
            && (outcome.Declined? <==> DeclinesOrder(account, bid, ask, command))
            && (outcome.Failed? <==>
                  !DeclinesOrder(account, bid, ask, command) && AddsUpToZero(account, command))
            && (outcome.Executed? ==>
                  && outcome.report
                     == Execution(command.symbol, command.side, command.qty, Quote(bid, ask, command.side), 0.0)
                  && after.positions - {command.symbol} == account.positions - {command.symbol}
                  && after.balance == account.balance
                  && Total(Book(after.positions))
                     == Plus(Total(Book(account.positions)), EntryChange(account.positions, outcome.report)))
  {
    var report := Execution(command.symbol, command.side, command.qty, Quote(bid, ask, command.side), 0.0);
    ExecutionFailsOn(account, report);
    if AfterExecution(account, report).Ok? {
      ExecutionRealises(account, report);
      UpdateTouchesOneSymbol(account.positions, command.symbol, command.side, command.qty, report.price);
    }
  }

  // ----- margin -----

  /**
    Margin is used by each position for itself, for what it cost on either side: longs and shorts do not set each
    other off, and nothing else uses any.
   */
  lemma MarginIsUsedByEach(positions: Positions, symbol: string)
    requires symbol in positions
    ensures UsedMargin(map[]) == 0.0
    ensures var position := positions[symbol];
            UsedMargin(positions) - UsedMargin(positions - {symbol})
            == MULTIPLIER * (if position.side == BuySide then Entry(position).notional else -Entry(position).notional)
  {
    assert Costs(map[]) == map[];
    UsedMarginWithout(positions, symbol);
    Negate(positions[symbol].avgPrice, positions[symbol].qty);
  }

  /** A new account reports its capital, all of it free. */
  lemma NewAccountReports(capital: real)
    ensures var account := Opened(capital);
            && ReportedEquity(account) == capital == account.freeMargin
            && account.usedMargin == UsedMargin(account.positions)
            && account.unrealised == Unrealised(account.positions, 0.0) && account.realised == 0.0
  {
    NoPositionsNoProfit(0.0);
    assert Costs(map[]) == map[];
  }

  // ----- whole runs -----

  datatype AccountEvent = Tick(price: real) | Trade(execution: Execution)

  ghost function AfterEvent(account: Account, event: AccountEvent): Account {
    match event
    case Tick(price) => AfterTick(account, price)
    case Trade(execution) =>
      var after := AfterExecution(account, execution);
      if after.Ok? then after.value else account
  }

  ghost function Run(capital: real, events: seq<AccountEvent>): Account {
    if events == [] then Opened(capital) else AfterEvent(Run(capital, events[..|events| - 1]), events[|events| - 1])
  }

  ghost predicate TakesEffect(account: Account, event: AccountEvent) {
    event.Trade? && AfterExecution(account, event.execution).Ok?
  }

  /** The signed quantity and notional that took effect. */
  ghost function Net(capital: real, events: seq<AccountEvent>): Amount {
    if events == [] then ZERO
    else
      var front, last := events[..|events| - 1], events[|events| - 1];
      if TakesEffect(Run(capital, front), last) then
        Plus(Net(capital, front), Moved(Run(capital, front).positions, last.execution))
      else Net(capital, front)
  }

  /** The signed quantity and notional of the executions as reported. */
  ghost function Reported(capital: real, events: seq<AccountEvent>): Amount {
    if events == [] then ZERO
    else
      var front, last := events[..|events| - 1], events[|events| - 1];
      if TakesEffect(Run(capital, front), last) then
        Plus(Reported(capital, front), Traded(last.execution.side, last.execution.qty, last.execution.price))
      else Reported(capital, front)
  }

  ghost function Fees(capital: real, events: seq<AccountEvent>): real {
    if events == [] then 0.0
    else
      var front, last := events[..|events| - 1], events[|events| - 1];
      Fees(capital, front) + if TakesEffect(Run(capital, front), last) then last.execution.fee else 0.0
  }

  lemma NoPositionsNoProfit(p: real)
    ensures Unrealised(map[], p) == 0.0
  {
    assert Book(map[]) == map[];
  }

  /**
    Over any run from a fresh account, profit at any mark price is the contract multiplier times
    (sell notional - buy notional + net signed quantity * price) of what took effect, and the cash
    balance has changed by the fees alone.
   */
  lemma {:induction false} ProfitIsCashFlow(capital: real, events: seq<AccountEvent>, p: real)
    ensures ProfitAt(Run(capital, events), p) == Marked(Net(capital, events), p)
    ensures Run(capital, events).balance == capital - Fees(capital, events)
  {
    if events == [] {
      NoPositionsNoProfit(p);
    } else {
      var front, last := events[..|events| - 1], events[|events| - 1];
      ProfitIsCashFlow(capital, front, p);
      NextProfitIsCashFlow(Run(capital, front), last, Net(capital, front), p);
    }
  }

  lemma NextProfitIsCashFlow(account: Account, event: AccountEvent, net: Amount, p: real)
    requires ProfitAt(account, p) == Marked(net, p)
    ensures ProfitAt(AfterEvent(account, event), p)
            == Marked(if TakesEffect(account, event) then Plus(net, Moved(account.positions, event.execution)) else net,
                      p)
    ensures AfterEvent(account, event).balance
            == account.balance - if TakesEffect(account, event) then event.execution.fee else 0.0
  {
    if TakesEffect(account, event) {
      ExecutionEarnsFromItsPrice(account, event.execution, p);
      MarkedIsAdditive(net, Moved(account.positions, event.execution), p);
    }
  }

  /** An execution over-closes if it is larger than the opposite position it meets. */
  predicate OverCloses(positions: Positions, execution: Execution) {
    var held := Held(positions, execution.symbol, execution.side);
    !Adds(held, execution.side) && held.qty < execution.qty
  }

  /** The reported trade is fully accounted for, at every mark price, exactly if it does not over-close. */
  lemma AccountedForUnlessOverClosing(account: Account, execution: Execution)
    requires AfterExecution(account, execution).Ok?
    ensures var after := AfterExecution(account, execution).value;
            (forall p: real {:trigger ProfitAt(after, p)} ::
               ProfitAt(after, p)
               == ProfitAt(account, p) + Marked(Traded(execution.side, execution.qty, execution.price), p))
            <==> !OverCloses(account.positions, execution)
  {
    var after := AfterExecution(account, execution).value;
    var Execution(_, side, qty, price, _) := execution;
    forall p: real
      ensures ProfitAt(after, p) == ProfitAt(account, p) + Marked(Moved(account.positions, execution), p)
    {
      ExecutionEarnsFromItsPrice(account, execution, p);
    }
    MarkedAbovePrice(side, qty, price);
    MarkedAbovePrice(side, Applied(account.positions, execution), price);
    var atNextPrice := ProfitAt(after, price + 1.0);
  }

  lemma MarkedAbovePrice(side: OrderSide, qty: int, price: real)
    ensures Marked(Traded(side, qty, price), price + 1.0) == MULTIPLIER * Signed(side, qty) as real
  {
    var signed := Signed(side, qty) as real;
    assert (price + 1.0) * signed - price * signed == signed;
  }

  ghost predicate NeverOverCloses(capital: real, events: seq<AccountEvent>) {
    forall i :: 0 <= i < |events| && events[i].Trade? ==>
      !OverCloses(Run(capital, events[..i]).positions, events[i].execution)
  }

  /** Without over-closing, what took effect is what was reported. */
  lemma {:induction false} NetIsReported(capital: real, events: seq<AccountEvent>)
    requires NeverOverCloses(capital, events)
    ensures Net(capital, events) == Reported(capital, events)
  {
    if events != [] {
      var n := |events| - 1;
      var front := events[..n];
      forall i | 0 <= i < n && front[i].Trade?
        ensures !OverCloses(Run(capital, front[..i]).positions, front[i].execution)
      {
        assert front[..i] == events[..i];
      }
      NetIsReported(capital, front);
    }
  }

  /** Over runs without over-closing, profit is the multiplier times the cash flow of the reported executions. */
  lemma ReportedProfit(capital: real, events: seq<AccountEvent>, p: real)
    requires NeverOverCloses(capital, events)
    ensures ProfitAt(Run(capital, events), p) == Marked(Reported(capital, events), p)
  {
    NetIsReported(capital, events);
    ProfitIsCashFlow(capital, events, p);
  }

  ghost predicate NoneEmpty(positions: Positions) {
    forall symbol :: symbol in positions ==> positions[symbol].qty != 0
  }

  /** What is closed altogether is gone: no run holds a position of nothing. */
  lemma {:induction false} NoEmptyPositions(capital: real, events: seq<AccountEvent>)
    ensures NoneEmpty(Run(capital, events).positions)
  {
    if events != [] {
      NoEmptyPositions(capital, events[..|events| - 1]);
      EventLeavesNoneEmpty(Run(capital, events[..|events| - 1]), events[|events| - 1]);
    }
  }

  lemma EventLeavesNoneEmpty(account: Account, event: AccountEvent)
    requires NoneEmpty(account.positions)
    ensures NoneEmpty(AfterEvent(account, event).positions)
  {
  }

  /** After the price has been marked, the account reports all of this as its equity, and what is free of it. */
  lemma MarkedAccountReports(capital: real, events: seq<AccountEvent>, price: real)
    ensures var account := Run(capital, events + [Tick(price)]);
            && ReportedEquity(account) == capital - Fees(capital, events) + Marked(Net(capital, events), price)
            && account.usedMargin == UsedMargin(account.positions)
            && account.freeMargin == (if ReportedEquity(account) < account.usedMargin then 0.0
                                      else ReportedEquity(account) - account.usedMargin)
  {
    assert (events + [Tick(price)])[..|events + [Tick(price)]| - 1] == events;
    ProfitIsCashFlow(capital, events, price);
  }
}
