/** The authoritative signed position of one instrument. */
module LivePosition {
  import opened Contracts

  datatype Position = Position(
    instrumentId: string,
    side: Option<Side>,
    qty: nat,
    avgPrice: Option<real>)

  ghost predicate Valid(position: Position) {
    && (position.side.Some? <==> position.qty > 0)
    && (position.avgPrice.Some? <==> position.qty > 0)
    && (position.side.Some? ==> Tradable(position.side.value))
    && (position.avgPrice.Some? ==> position.avgPrice.value > 0.0)
  }

  function Flat(instrumentId: string): Position {
    Position(instrumentId, None, 0, None)
  }

  /** Long is positive, short is negative. */
  function Signed(position: Position): int {
    if position.side.Some? then Sign(position.side.value) * position.qty else 0
  }

  /** Average price times signed quantity. */
  function SignedCost(position: Position): real {
    if position.avgPrice.Some? then position.avgPrice.value * Signed(position) as real else 0.0
  }

  function AfterFill(position: Position, side: Side, quantity: int, price: real): (r: Result<Position, Error>)
    requires Valid(position)
  {
    if !Tradable(side) then Err(SIDE_INVALID)
    else if quantity <= 0 then Err(QUANTITY_INVALID)
    else if price <= 0.0 then Err(PRICE_INVALID)
    else Ok(
      if position.qty == 0 then
        position.(side := Some(side), qty := quantity, avgPrice := Some(price))
      else if side == position.side.value then
        position.(
          avgPrice := Some(WeightedAverage(position.avgPrice.value, position.qty, price, quantity)),
          qty := position.qty + quantity)
      else if quantity < position.qty then position.(qty := position.qty - quantity)
      else if quantity == position.qty then position.(side := None, qty := 0, avgPrice := None)
      else position.(side := Some(side), qty := quantity - position.qty, avgPrice := Some(price)))
  }

  /** Profit taken by the part of a fill that closes an opposed position; nothing otherwise. */
  function Realised(position: Position, side: Side, quantity: int, price: real): real
    requires Valid(position)
  {
    if position.qty == 0 || side == position.side.value then 0.0
    else
      var closed := if quantity < position.qty then quantity else position.qty;
      (price - position.avgPrice.value) * (Sign(position.side.value) * closed) as real
  }

  /** A fill is taken exactly when it is well formed, and moves the signed position by exactly the signed fill. */
  lemma FillMovesPosition(position: Position, side: Side, quantity: int, price: real)
    requires Valid(position)
    ensures AfterFill(position, side, quantity, price).Ok? <==>
              (side == BUY || side == SELL) && quantity > 0 && price > 0.0
    ensures AfterFill(position, side, quantity, price).Ok? ==>
              var after := AfterFill(position, side, quantity, price).value;
              && Valid(after)
              && after.instrumentId == position.instrumentId
              && Signed(after) == Signed(position) + Sign(side) * quantity
  {
    if Tradable(side) && quantity > 0 && price > 0.0 && position.qty > 0 {
      WeightedAverageConserves(position.avgPrice.value, position.qty, price, quantity);
    }
  }

  /**
    Whether a fill opens, adds, reduces, closes or turns the position round, the cost carried at
    the new average price accounts for the fill's whole notional: what is not carried on was
    realised at the old average.
   */
  lemma FillConservesCost(position: Position, side: Side, quantity: int, price: real)
    requires Valid(position)
    requires AfterFill(position, side, quantity, price).Ok?
    ensures SignedCost(AfterFill(position, side, quantity, price).value)
            == SignedCost(position) + price * (Sign(side) * quantity) as real
               + Realised(position, side, quantity, price)
  {
    if position.qty > 0 {
      var held, sign, a := position.qty, Sign(position.side.value), position.avgPrice.value;
      if side == position.side.value {
        CostOfAdding(sign, a, held, price, quantity);
      } else if quantity < held {
        CostOfReducing(sign, a, held, price, quantity);
      } else {
        CostOfTurning(sign, a, held, price, quantity);
      }
    }
  }

  lemma CostOfAdding(sign: int, a: real, held: int, p: real, n: int)
    requires (sign == 1 || sign == -1) && held > 0 && n > 0
    ensures WeightedAverage(a, held, p, n) * (sign * (held + n)) as real
            == a * (sign * held) as real + p * (sign * n) as real
  {
    WeightedAverageConserves(a, held, p, n);
  }

  lemma CostOfReducing(sign: int, a: real, held: int, p: real, n: int)
    requires sign == 1 || sign == -1
    ensures a * (sign * (held - n)) as real
            == a * (sign * held) as real + p * (-sign * n) as real + (p - a) * (sign * n) as real
  {
    var m := (sign * n) as real;
    assert (sign * (held - n)) as real == (sign * held) as real - m;
    assert (-sign * n) as real == -m;
  }

  lemma CostOfTurning(sign: int, a: real, held: int, p: real, n: int)
    requires sign == 1 || sign == -1
    ensures p * (-sign * (n - held)) as real
            == a * (sign * held) as real + p * (-sign * n) as real + (p - a) * (sign * held) as real
  {
    var m := (sign * held) as real;
    assert (-sign * (n - held)) as real == (-sign * n) as real + m;
  }

  class LivePositionAggregate {
    const instrumentId: string
    var side: Option<Side>
    var qty: nat
    var avgPrice: Option<real>

    ghost function Value(): Position
      reads this
    {
      Position(instrumentId, side, qty, avgPrice)
    }

    constructor (instrumentId: string)
      requires instrumentId != ""
      ensures Valid(Value()) && Value() == Flat(instrumentId)
    {
      this.instrumentId := instrumentId;
      side, qty, avgPrice := None, 0, None;
    }

    method ApplyFill(side: Side, quantity: int, price: real) returns (r: Result<(), Error>)
      requires Valid(Value())
      modifies this
      ensures Valid(Value())
      ensures match AfterFill(old(Value()), side, quantity, price)
              case Ok(position) => Value() == position && r == Ok(())
              case Err(error) => Value() == old(Value()) && r == Err(error)
    {
      FillMovesPosition(Value(), side, quantity, price);
      if side != BUY && side != SELL { return Err(SIDE_INVALID); }
      if quantity <= 0 { return Err(QUANTITY_INVALID); }
      if price <= 0.0 { return Err(PRICE_INVALID); }
      if qty == 0 || this.side.None? {
        this.side, qty, avgPrice := Some(side), quantity, Some(price);
        return Ok(());
      }
      if this.side == Some(side) {
        avgPrice := Some(WeightedAverage(avgPrice.value, qty, price, quantity));
        qty := qty + quantity;
        return Ok(());
      }
      if quantity < qty {
        qty := qty - quantity;
        return Ok(());
      }
      if quantity == qty {
        this.side, qty, avgPrice := None, 0, None;
        return Ok(());
      }
      this.side := Some(side);
      qty := quantity - qty;
      avgPrice := Some(price);
      return Ok(());
    }

    method Snapshot() returns (r: Position)
      ensures r == Value()
    {
      r := Position(instrumentId, side, qty, avgPrice);
    }
  }
}
