/** The bot's own position, valued at weighted average cost. */
module Portfolio {
  import opened Results
  import opened Orders

  datatype LedgerError = SymbolMismatch | SellExceedsHolding

  datatype Position = Position(symbol: string, quantity: real, averagePrice: real)
  {
    predicate Valid() {
      quantity >= 0.0 && averagePrice >= 0.0
    }

    function NotionalAt(price: real): real {
      quantity * price
    }

    /** The position after `fill`. A sale keeps the average price, except that an
        exact close resets it to zero. */
    function Apply(fill: Fill): (r: Result<Position, LedgerError>)
      requires Valid() && fill.Valid()
      ensures r.Success? ==> r.value.Valid() && r.value.symbol == symbol
      ensures r.Success? ==> r.value.quantity == quantity + fill.SignedQuantity()
      ensures r.Success? && r.value.quantity == 0.0 ==> r.value.averagePrice == 0.0
      ensures r.Success? && r.value.quantity > 0.0 && fill.side == Sell ==> r.value.averagePrice == averagePrice
      ensures r.Success? <==> fill.symbol == symbol && (fill.side == Buy || fill.quantity <= quantity)
    {
      if fill.symbol != symbol then
        Failure(SymbolMismatch)
      else if fill.side == Buy then
        var cost := quantity * averagePrice + fill.Notional();
        CostOfNonNegatives(quantity, averagePrice, fill.quantity, fill.price);
        AverageOfNonNegatives(cost, quantity + fill.quantity);
        Success(Position(symbol, quantity + fill.quantity, cost / (quantity + fill.quantity)))
      else if fill.quantity > quantity then
        Failure(SellExceedsHolding)
      else
        var left := quantity - fill.quantity;
        Success(Position(symbol, left, if left > 0.0 then averagePrice else 0.0))
    }
  }

  function Flat(symbol: string): Position {
    Position(symbol, 0.0, 0.0)
  }

  datatype AccountState = AccountState(cash: real, position: Position, dayOpeningEquity: real)
  {
    predicate Valid() {
      position.Valid() && dayOpeningEquity > 0.0
    }

    function EquityAt(price: real): real {
      cash + position.NotionalAt(price)
    }

    function DailyPnlAt(price: real): real {
      EquityAt(price) - dayOpeningEquity
    }
  }

  datatype EquitySnapshot = EquitySnapshot(
    takenAt: int, symbol: string, markPrice: real, cash: real, positionQuantity: real,
    equity: real, dayOpeningEquity: real)
  {
    predicate Valid() {
      markPrice > 0.0 && positionQuantity >= 0.0 && dayOpeningEquity > 0.0
    }
  }

  lemma CostOfNonNegatives(q: real, a: real, r: real, b: real)
    requires q >= 0.0 && a >= 0.0 && r >= 0.0 && b >= 0.0
    ensures q * a + r * b >= 0.0
  {
    assert q * a >= 0.0;
    assert r * b >= 0.0;
  }

  lemma AverageOfNonNegatives(cost: real, quantity: real)
    requires cost >= 0.0 && quantity > 0.0
    ensures cost / quantity >= 0.0
    ensures (cost / quantity) * quantity == cost
  {
  }
}
