/** The simulated firm's account: positions netted by symbol, profit realised on closing, one mark price for all. */
module VirtualAccounts {
  import opened Contracts
  import opened Ledger
  import opened Numbers

  const MULTIPLIER := 250000.0

  datatype VirtualPosition = VirtualPosition(side: OrderSide, qty: int, avgPrice: real)

  type Positions = map<string, VirtualPosition>

  datatype VirtualError = ZERO_DIVISION

  datatype Execution = Execution(symbol: string, side: OrderSide, qty: int, price: real, fee: real)

  function Signed(side: OrderSide, qty: int): int {
    if side == BuySide then qty else -qty
  }

  function Opposite(side: OrderSide): OrderSide {
    if side == BuySide then SellSide else BuySide
  }

  function Held(positions: Positions, symbol: string, side: OrderSide): VirtualPosition {
    if symbol in positions then positions[symbol] else VirtualPosition(side, 0, 0.0)
  }

  predicate Adds(held: VirtualPosition, side: OrderSide) {
    held.qty == 0 || held.side == side
  }

  /** (price - average) * closed, signed by the side that is being closed. */
  function Gain(held: VirtualPosition, closed: int, price: real): real {
    (price - held.avgPrice) * (Signed(held.side, closed)) as real
  }

  /**
    The new positions and the profit realised. Quantities may have any sign; the part of an opposite
    quantity that exceeds the held one is dropped.
   */
  function Updated(positions: Positions, symbol: string, side: OrderSide, qty: int, price: real)
    : Result<(Positions, real), VirtualError>
  {
    var held := Held(positions, symbol, side);
    if Adds(held, side) then
      if held.qty + qty == 0 then Err(ZERO_DIVISION)
      else Ok((positions[symbol := VirtualPosition(side, held.qty + qty,
                                                   WeightedAverage(held.avgPrice, held.qty, price, qty))], 0.0))
    else
      var closed := Min(held.qty, qty);
      Ok((if held.qty == closed then positions - {symbol} else positions[symbol := held.(qty := held.qty - closed)],
          Gain(held, closed, price) * MULTIPLIER))
  }

  class PositionManager {
    var positions: Positions

    constructor ()
      ensures positions == map[]
    {
      positions := map[];
    }

    method UpdatePosition(symbol: string, side: OrderSide, qty: int, price: real)
      returns (r: Result<real, VirtualError>)
      modifies this
      ensures match Updated(old(positions), symbol, side, qty, price)
              case Ok(after) => positions == after.0 && r == Ok(after.1)
              case Err(error) => positions == old(positions) && r == Err(error)
    {
      var p := if symbol in positions then positions[symbol] else VirtualPosition(side, 0, 0.0);
      if p.qty == 0 || p.side == side {
        var total := p.qty + qty;
        if total == 0 { return Err(ZERO_DIVISION); }
        p := VirtualPosition(side, total, WeightedAverage(p.avgPrice, p.qty, price, qty));
        positions := positions[symbol := p];
        return Ok(0.0);
      }
      var close := if qty < p.qty then qty else p.qty;
      var pnl := Gain(p, close, price) * MULTIPLIER;
      p := p.(qty := p.qty - close);
      positions := if p.qty != 0 then positions[symbol := p] else positions - {symbol};
      return Ok(pnl);
    }
  }

  // ----- marking -----

  /** A signed quantity and its notional at `price`. */
  function Traded(side: OrderSide, qty: int, price: real): Amount {
    Amount(Signed(side, qty), price * Signed(side, qty) as real)
  }

  /** A position's signed quantity and the signed cost it carries. */
  function Entry(position: VirtualPosition): Amount {
    Traded(position.side, position.qty, position.avgPrice)
  }

  function Book(positions: Positions): map<string, Amount> {
    map symbol | symbol in positions :: Entry(positions[symbol])
  }

  /** What a signed quantity that cost `notional` has gained at price `p`. */
  function Marked(amount: Amount, p: real): real {
    MULTIPLIER * (p * amount.quantity as real - amount.notional)
  }

  ghost function Unrealised(positions: Positions, p: real): real {
    Marked(Total(Book(positions)), p)
  }

  lemma MarkedIsAdditive(a: Amount, b: Amount, p: real)
    ensures Marked(Plus(a, b), p) == Marked(a, p) + Marked(b, p)
  {
    assert (a.quantity + b.quantity) as real == a.quantity as real + b.quantity as real;
  }

  lemma MarkedPosition(position: VirtualPosition, p: real)
    ensures Marked(Entry(position), p)
            == (if position.side == BuySide then p - position.avgPrice else position.avgPrice - p)
               * position.qty as real * MULTIPLIER
  {
    var q, a := position.qty as real, position.avgPrice;
    if position.side == BuySide {
      assert Marked(Entry(position), p) == MULTIPLIER * (p * q - a * q);
      assert p * q - a * q == (p - a) * q;
    } else {
      assert Marked(Entry(position), p) == MULTIPLIER * (p * -q - a * -q);
      assert p * -q - a * -q == (a - p) * q;
    }
  }

  class PnLEngine {
    var realizedPnl: real
    var unrealizedPnl: real

    constructor ()
      ensures realizedPnl == 0.0 && unrealizedPnl == 0.0
    {
      realizedPnl, unrealizedPnl := 0.0, 0.0;
    }

    /** In whatever order the positions come, the sum is the same. */
    method CalculateUnrealized(positions: Positions, currentPrice: real) returns (total: real)
      modifies this`unrealizedPnl
      ensures total == unrealizedPnl == Unrealised(positions, currentPrice)
    {
      total := 0.0;
      var rest := positions;
      while rest != map[]
        invariant total + Unrealised(rest, currentPrice) == Unrealised(positions, currentPrice)
        decreases |rest|
      {
        var symbol :| symbol in rest;
        var position := rest[symbol];
        var delta :=
          if position.side == BuySide then currentPrice - position.avgPrice else position.avgPrice - currentPrice;
        UnrealisedWithout(rest, symbol, currentPrice);
        MarkedPosition(position, currentPrice);
        total := total + delta * position.qty as real * MULTIPLIER;
        rest := rest - {symbol};
      }
      unrealizedPnl := total;
    }

    method AddRealized(amount: real) returns (total: real)
      modifies this`realizedPnl
      ensures total == realizedPnl == old(realizedPnl) + amount
    {
      realizedPnl := realizedPnl + amount;
      return realizedPnl;
    }
  }

  lemma UnrealisedWithout(positions: Positions, symbol: string, p: real)
    requires symbol in positions
    ensures Unrealised(positions, p) == Marked(Entry(positions[symbol]), p) + Unrealised(positions - {symbol}, p)
  {
    var book, rest := Book(positions), Book(positions - {symbol});
    assert book - {symbol} == rest;
    TotalWithout(book, symbol);
    MarkedIsAdditive(book[symbol], Total(rest), p);
  }

  // ----- one update -----

  function EntryOf(positions: Positions, symbol: string): Amount {
    if symbol in positions then Entry(positions[symbol]) else ZERO
  }

  /** How much of an execution takes effect: closing stops at flat. */
  function Applied(positions: Positions, execution: Execution): int {
    var held := Held(positions, execution.symbol, execution.side);
    if Adds(held, execution.side) then execution.qty else Min(held.qty, execution.qty)
  }

  /** What is realised by an execution is the cost that leaves the book beyond the traded notional. */
  function Realised(positions: Positions, execution: Execution): real {
    var held := Held(positions, execution.symbol, execution.side);
    if Adds(held, execution.side) then 0.0 else Gain(held, Min(held.qty, execution.qty), execution.price)
  }

  lemma AverageCarriesCost(side: OrderSide, a: real, m: int, p: real, n: int)
    requires m + n != 0
    ensures Traded(side, m + n, WeightedAverage(a, m, p, n)) == Plus(Traded(side, m, a), Traded(side, n, p))
  {
    var average := WeightedAverage(a, m, p, n);
    assert average * (m + n) as real == a * m as real + p * n as real;
    if side == SellSide {
      Negate(average, m + n);
      Negate(a, m);
      Negate(p, n);
    }
  }

  lemma Negate(price: real, qty: int)
    ensures price * (-qty) as real == -(price * qty as real)
  {
  }

  lemma ClosingCarriesCost(held: VirtualPosition, closed: int, p: real)
    ensures Traded(held.side, held.qty - closed, held.avgPrice)
            == Plus(Entry(held), Plus(Traded(Opposite(held.side), closed, p), Amount(0, Gain(held, closed, p))))
  {
    var a, all, part := held.avgPrice, Signed(held.side, held.qty) as real, Signed(held.side, closed) as real;
    Negate(p, Signed(held.side, closed));
    assert a * (all - part) == a * all - a * part;
    assert (p - a) * part == p * part - a * part;
  }

  lemma TotalOfEntry(positions: Positions, symbol: string)
    ensures Total(Book(positions)) == Plus(EntryOf(positions, symbol), Total(Book(positions - {symbol})))
  {
    var book := Book(positions);
    assert book - {symbol} == Book(positions - {symbol});
    if symbol in positions {
      TotalWithout(book, symbol);
    } else {
      assert positions - {symbol} == positions;
    }
  }

  lemma UpdateTouchesOneSymbol(positions: Positions, symbol: string, side: OrderSide, qty: int, price: real)
    requires Updated(positions, symbol, side, qty, price).Ok?
    ensures Updated(positions, symbol, side, qty, price).value.0 - {symbol} == positions - {symbol}
  {
  }

  lemma EntryMovesTotal(entry: Amount, entry': Amount, rest: Amount, moved: Amount)
    requires entry' == Plus(entry, moved)
    ensures Plus(entry', rest) == Plus(Plus(entry, rest), moved)
  {
  }

  /** The part of an execution that takes effect, at its price. */
  function Moved(positions: Positions, execution: Execution): Amount {
    Traded(execution.side, Applied(positions, execution), execution.price)
  }

  /** What the entry of the executed symbol gains. */
  function EntryChange(positions: Positions, execution: Execution): Amount {
    Plus(Moved(positions, execution), Amount(0, Realised(positions, execution)))
  }

  lemma AddingMovesEntry(positions: Positions, execution: Execution)
    requires Updated(positions, execution.symbol, execution.side, execution.qty, execution.price).Ok?
    requires Adds(Held(positions, execution.symbol, execution.side), execution.side)
    ensures var Execution(symbol, side, qty, price, _) := execution;
            EntryOf(Updated(positions, symbol, side, qty, price).value.0, symbol)
            == Plus(EntryOf(positions, symbol), EntryChange(positions, execution))
  {
    var Execution(symbol, side, qty, price, _) := execution;
    var held := Held(positions, symbol, side);
    AverageCarriesCost(side, held.avgPrice, held.qty, price, qty);
  }

  lemma ClosingMovesEntry(positions: Positions, execution: Execution)
    requires !Adds(Held(positions, execution.symbol, execution.side), execution.side)
    ensures var Execution(symbol, side, qty, price, _) := execution;
            EntryOf(Updated(positions, symbol, side, qty, price).value.0, symbol)
            == Plus(EntryOf(positions, symbol), EntryChange(positions, execution))
  {
    var Execution(symbol, side, qty, price, _) := execution;
    var held := Held(positions, symbol, side);
    ClosingCarriesCost(held, Min(held.qty, qty), price);
  }

  /** The book takes up the part that takes effect, and the cost of what was realised leaves it. */
  lemma UpdateMovesBook(positions: Positions, execution: Execution)
    requires Updated(positions, execution.symbol, execution.side, execution.qty, execution.price).Ok?
    ensures var Execution(symbol, side, qty, price, _) := execution;
            Total(Book(Updated(positions, symbol, side, qty, price).value.0))
            == Plus(Total(Book(positions)), EntryChange(positions, execution))
  {
    var Execution(symbol, side, qty, price, _) := execution;
    var after := Updated(positions, symbol, side, qty, price).value.0;
    if Adds(Held(positions, symbol, side), side) {
      AddingMovesEntry(positions, execution);
    } else {
      ClosingMovesEntry(positions, execution);
    }
    TotalOfEntry(positions, symbol);
    TotalOfEntry(after, symbol);
    UpdateTouchesOneSymbol(positions, symbol, side, qty, price);
    EntryMovesTotal(EntryOf(positions, symbol), EntryOf(after, symbol), Total(Book(positions - {symbol})),
                    EntryChange(positions, execution));
  }

  // ----- the account -----

  datatype Account = Account(
    balance: real, realised: real, unrealised: real, positions: Positions, usedMargin: real, freeMargin: real)

  function Opened(capital: real): Account {
    Account(capital, 0.0, 0.0, map[], 0.0, capital)
  }

  function AfterExecution(account: Account, execution: Execution): Result<Account, VirtualError> {
    var Execution(symbol, side, qty, price, fee) := execution;
    match Updated(account.positions, symbol, side, qty, price)
    case Err(error) => Err(error)
    case Ok((positions, pnl)) =>
      Ok(account.(positions := positions, realised := account.realised + pnl, balance := account.balance - fee))
  }

  function Costs(positions: Positions): map<string, Amount> {
    map symbol | symbol in positions :: Cost(positions[symbol])
  }

  /** Margin does not care about the side. */
  function Cost(position: VirtualPosition): Amount {
    Amount(position.qty, position.avgPrice * position.qty as real * MULTIPLIER)
  }

  ghost function UsedMargin(positions: Positions): real {
    Total(Costs(positions)).notional
  }

  ghost function AfterTick(account: Account, price: real): Account {
    var unrealised := Unrealised(account.positions, price);
    var used := UsedMargin(account.positions);
    var free := account.balance + account.realised + unrealised - used;
    account.(unrealised := unrealised, usedMargin := used, freeMargin := if free < 0.0 then 0.0 else free)
  }

  lemma UsedMarginWithout(positions: Positions, symbol: string)
    requires symbol in positions
    ensures UsedMargin(positions) == Cost(positions[symbol]).notional + UsedMargin(positions - {symbol})
  {
    var costs := Costs(positions);
    TotalWithout(costs, symbol);
    assert costs - {symbol} == Costs(positions - {symbol});
  }

  class MarginEngine {
    constructor () {
    }

    method CalculateUsedMargin(positions: Positions) returns (total: real)
      ensures total == UsedMargin(positions)
    {
      total := 0.0;
      var rest := positions;
      while rest != map[]
        invariant total + UsedMargin(rest) == UsedMargin(positions)
        decreases |rest|
      {
        var symbol :| symbol in rest;
        UsedMarginWithout(rest, symbol);
        var position := rest[symbol];
        total := total + position.avgPrice * position.qty as real * MULTIPLIER;
        rest := rest - {symbol};
      }
    }
  }

  class PaperTradingAccount {
    var balance: real
    var realizedPnl: real
    var unrealizedPnl: real
    var usedMargin: real
    var freeMargin: real
    const positionMgr: PositionManager
    const pnlEngine: PnLEngine
    const marginEngine: MarginEngine

    ghost predicate Valid()
      reads this, pnlEngine
    {
      pnlEngine.realizedPnl == realizedPnl
    }

    ghost function Value(): Account
      reads this, positionMgr
    {
      Account(balance, realizedPnl, unrealizedPnl, positionMgr.positions, usedMargin, freeMargin)
    }

    constructor (capital: real)
      ensures Valid() && Value() == Opened(capital) && fresh(positionMgr) && fresh(pnlEngine)
    {
      balance, realizedPnl, unrealizedPnl, usedMargin, freeMargin := capital, 0.0, 0.0, 0.0, capital;
      positionMgr := new PositionManager();
      pnlEngine := new PnLEngine();
      marginEngine := new MarginEngine();
    }

    method UpdateTickPrice(price: real)
      requires Valid()
      modifies this, pnlEngine
      ensures Valid() && Value() == AfterTick(old(Value()), price)
    {
      unrealizedPnl := pnlEngine.CalculateUnrealized(positionMgr.positions, price);
      usedMargin := marginEngine.CalculateUsedMargin(positionMgr.positions);
      var free := balance + realizedPnl + unrealizedPnl - usedMargin;
      freeMargin := if free < 0.0 then 0.0 else free;
    }

    method ApplyExecution(execution: Execution) returns (r: Result<(), VirtualError>)
      requires Valid()
      modifies this, positionMgr, pnlEngine
      ensures Valid()
      ensures match AfterExecution(old(Value()), execution)
              case Ok(account) => Value() == account && r == Ok(())
              case Err(error) => Value() == old(Value()) && r == Err(error)
    {
      var pnl := positionMgr.UpdatePosition(execution.symbol, execution.side, execution.qty, execution.price);
      if pnl.Err? { return Err(pnl.error); }
      realizedPnl := pnlEngine.AddRealized(pnl.value);
      balance := balance - execution.fee;
      return Ok(());
    }
  }

  // ----- the firm -----

  datatype OrderOutcome = Declined | Executed(report: Execution) | Failed(error: VirtualError)

  /** Refused for want of margin or of a quote; otherwise executed in full at the quote, and marked there. */
  ghost function AfterOrder(account: Account, bid: real, ask: real, command: OrderCommand): (Account, OrderOutcome) {
    var price := if command.side == BuySide then ask else bid;
    if account.freeMargin < command.price * command.qty as real * MULTIPLIER || price <= 0.0 then (account, Declined)
    else
      var report := Execution(command.symbol, command.side, command.qty, price, 0.0);
      match AfterExecution(account, report)
      case Ok(executed) => (AfterTick(executed, price), Executed(report))
      case Err(error) => (account, Failed(error))
  }

  class VirtualSecuritiesFirmRuntime {
    const account: PaperTradingAccount
    var bid: real
    var ask: real
    var marketTicks: nat
    var orderCommands: nat
    var executionsIssued: nat

    constructor (capital: real)
      ensures fresh(account) && account.Valid() && account.Value() == Opened(capital)
    {
      account := new PaperTradingAccount(capital);
      bid, ask, marketTicks, orderCommands, executionsIssued := 0.0, 0.0, 0, 0, 0;
    }

    method ProcessMarketData(bid: real, ask: real, underlying: real)
      requires account.Valid()
      modifies this, account, account.pnlEngine
      ensures account.Valid() && account.Value() == AfterTick(old(account.Value()), underlying)
      ensures this.bid == bid && this.ask == ask
    {
      marketTicks := marketTicks + 1;
      this.bid, this.ask := bid, ask;
      account.UpdateTickPrice(underlying);
    }

    method ProcessOrder(command: OrderCommand) returns (outcome: OrderOutcome)
      requires account.Valid()
      modifies this, account, account.positionMgr, account.pnlEngine
      ensures account.Valid() && (account.Value(), outcome) == AfterOrder(old(account.Value()), bid, ask, command)
      ensures bid == old(bid) && ask == old(ask)
      ensures orderCommands == old(orderCommands) + 1
      ensures executionsIssued == old(executionsIssued) + if outcome.Executed? then 1 else 0
    {
      orderCommands := orderCommands + 1;
      if account.freeMargin < command.price * command.qty as real * MULTIPLIER { return Declined; }
      var price := if command.side == BuySide then ask else bid;
      if price <= 0.0 { return Declined; }
      var report := Execution(command.symbol, command.side, command.qty, price, 0.0);
      var applied := account.ApplyExecution(report);
      if applied.Err? { return Failed(applied.error); }
      account.UpdateTickPrice(price);
      executionsIssued := executionsIssued + 1;
      return Executed(report);
    }
  }
}
