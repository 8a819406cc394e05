/** Folding an execution into cash, position and fees. */
module Ledger {
  import opened Results
  import opened Decimals
  import opened Orders
  import opened Portfolio

  datatype LedgerUpdate = LedgerUpdate(cash: real, position: Position, fees: real)

  /** The fold, fill by fill in order; the first fill that cannot be applied ends it. */
  function Fold(cash: real, position: Position, fills: seq<Fill>): (r: Result<LedgerUpdate, LedgerError>)
    requires position.Valid() && ValidFills(fills)
    ensures r.Success? ==> r.value.position.Valid() && r.value.position.symbol == position.symbol
  {
    if |fills| == 0 then
      Success(LedgerUpdate(cash, position, 0.0))
    else
      var last := fills[|fills| - 1];
      match Fold(cash, position, fills[..|fills| - 1])
      case Failure(error) => Failure(error)
      case Success(before) =>
        match before.position.Apply(last)
        case Failure(error) => Failure(error)
        case Success(after) => Success(LedgerUpdate(before.cash + last.CashFlow(), after, before.fees + last.fee))
  }

  method ApplyExecution(cash: real, position: Position, execution: OrderExecution)
    returns (r: Result<LedgerUpdate, LedgerError>)
    requires position.Valid() && ValidFills(execution.fills)
    ensures r == Fold(cash, position, execution.fills)
  {
    var fills := execution.fills;
    var newCash, newPosition, fees := cash, position, 0.0;
    for i := 0 to |fills|
      invariant newPosition.Valid()
      invariant Fold(cash, position, fills[..i]) == Success(LedgerUpdate(newCash, newPosition, fees))
    {
      var fill := fills[i];
      assert fills[..i + 1][..i] == fills[..i];
      fees := fees + fill.fee;
      if fill.side == Buy {
        newCash := newCash - (fill.Notional() + fill.fee);
      } else {
        newCash := newCash + (fill.Notional() - fill.fee);
      }
      var applied := newPosition.Apply(fill);
      if applied.Failure? {
        FailureIsFinal(cash, position, fills, i + 1);
        return Failure(applied.error);
      }
      newPosition := applied.value;
    }
    assert fills[..|fills|] == fills;
    return Success(LedgerUpdate(newCash, newPosition, fees));
  }

  lemma {:induction false} FailureIsFinal(cash: real, position: Position, fills: seq<Fill>, n: nat)
    requires position.Valid() && ValidFills(fills) && n <= |fills|
    requires Fold(cash, position, fills[..n]).Failure?
    ensures Fold(cash, position, fills) == Fold(cash, position, fills[..n])
    decreases |fills|
  {
    if n == |fills| {
      assert fills[..n] == fills;
    } else {
      assert fills[..|fills| - 1][..n] == fills[..n];
      FailureIsFinal(cash, position, fills[..|fills| - 1], n);
    }
  }

  /** Folding two batches one after the other is folding them together. */
  lemma {:induction false} FoldJoins(cash: real, position: Position, first: seq<Fill>, second: seq<Fill>)
    requires position.Valid() && ValidFills(first) && ValidFills(second)
    requires Fold(cash, position, first).Success?
    ensures ValidFills(first + second)
    ensures var u := Fold(cash, position, first).value;
            var v := Fold(u.cash, u.position, second);
            Fold(cash, position, first + second) ==
              if v.Failure? then v else Success(v.value.(fees := u.fees + v.value.fees))
  {
    hide Position.Apply, Fill.CashFlow;
    if |second| == 0 {
      assert first + second == first;
    } else {
      var init := second[..|second| - 1];
      FoldJoins(cash, position, first, init);
      assert (first + second)[..|first + second| - 1] == first + init;
    }
  }

  /** Cash moves by the fills' cash flows, quantity by their signed quantities,
      and the fees reported are the fees charged. */
  lemma {:induction false} FoldConserves(cash: real, position: Position, fills: seq<Fill>)
    requires position.Valid() && ValidFills(fills)
    requires Fold(cash, position, fills).Success?
    ensures var u := Fold(cash, position, fills).value;
            && u.cash == cash + CashFlows(fills)
            && u.position.quantity == position.quantity + SignedQuantity(fills)
            && u.fees == Fees(fills)
  {
    if |fills| > 0 {
      FoldConserves(cash, position, fills[..|fills| - 1]);
    }
  }

  /** Profit taken by the sales: each against the average price it was sold from. */
  function Realised(position: Position, fills: seq<Fill>): real
    requires position.Valid() && ValidFills(fills)
  {
    if |fills| == 0 then 0.0
    else
      var init, last := fills[..|fills| - 1], fills[|fills| - 1];
      Realised(position, init) +
      match Fold(0.0, position, init)
      case Failure(_) => 0.0
      case Success(u) => Gain(u.position, last)
  }

  function Gain(position: Position, fill: Fill): real {
    if fill.side == Buy then 0.0 else fill.quantity * (fill.price - position.averagePrice)
  }

  function AtCost(cash: real, position: Position): real {
    cash + position.quantity * position.averagePrice
  }

  lemma {:induction false} PositionIgnoresCash(c: real, d: real, position: Position, fills: seq<Fill>)
    requires position.Valid() && ValidFills(fills)
    ensures Fold(c, position, fills).Success? == Fold(d, position, fills).Success?
    ensures Fold(c, position, fills).Success? ==>
              && Fold(c, position, fills).value.position == Fold(d, position, fills).value.position
              && Fold(c, position, fills).value.fees == Fold(d, position, fills).value.fees
  {
    if |fills| > 0 {
      PositionIgnoresCash(c, d, position, fills[..|fills| - 1]);
    }
  }

  /** Cash plus the holding at cost is the start plus the realised profit minus
      the fees: across partial sales, exact closes and re-entries. */
  lemma {:induction false} RealisedProfitIdentity(cash: real, position: Position, fills: seq<Fill>)
    requires position.Valid() && ValidFills(fills)
    requires Fold(cash, position, fills).Success?
    ensures var u := Fold(cash, position, fills).value;
            AtCost(u.cash, u.position) == AtCost(cash, position) + Realised(position, fills) - Fees(fills)
  {
    if |fills| > 0 {
      var init, last := fills[..|fills| - 1], fills[|fills| - 1];
      RealisedProfitIdentity(cash, position, init);
      PositionIgnoresCash(cash, 0.0, position, init);
      var before := Fold(cash, position, init).value;
      GainStep(before.cash, before.position, last);
    }
  }

  lemma GainStep(cash: real, position: Position, fill: Fill)
    requires position.Valid() && fill.Valid() && position.Apply(fill).Success?
    ensures AtCost(cash + fill.CashFlow(), position.Apply(fill).value) ==
            AtCost(cash, position) + Gain(position, fill) - fill.fee
  {
    HoldingAtCost(position, fill);
    assert fill.quantity * (fill.price - position.averagePrice) ==
           fill.quantity * fill.price - fill.quantity * position.averagePrice;
  }

  lemma HoldingAtCost(position: Position, fill: Fill)
    requires position.Valid() && fill.Valid() && position.Apply(fill).Success?
    ensures var after := position.Apply(fill).value;
            after.quantity * after.averagePrice == position.quantity * position.averagePrice +
              (if fill.side == Buy then fill.Notional() else -(fill.quantity * position.averagePrice))
  {
    if fill.side == Buy {
      AverageOfNonNegatives(position.quantity * position.averagePrice + fill.Notional(), position.quantity + fill.quantity);
    } else if fill.quantity == position.quantity {
      assert position.Apply(fill).value.quantity == 0.0;
    } else {
      assert (position.quantity - fill.quantity) * position.averagePrice ==
             position.quantity * position.averagePrice - fill.quantity * position.averagePrice;
    }
  }

  /** The prices paid since the position was last zero. */
  function OpenLots(position: Position, fills: seq<Fill>): seq<real>
    requires position.Valid() && ValidFills(fills)
  {
    if |fills| == 0 then []
    else
      var init, last := fills[..|fills| - 1], fills[|fills| - 1];
      if last.side == Buy then OpenLots(position, init) + [last.price]
      else match Fold(0.0, position, fills)
        case Failure(_) => []
        case Success(u) => if u.position.quantity == 0.0 then [] else OpenLots(position, init)
  }

  /** Whatever bounds the prices paid since the position was last zero bounds the
      average price, and an open position always has such a price. */
  lemma {:induction false} AverageWithinOpenLots(symbol: string, fills: seq<Fill>, lo: real, hi: real)
    requires ValidFills(fills) && Fold(0.0, Flat(symbol), fills).Success?
    requires forall p :: p in OpenLots(Flat(symbol), fills) ==> lo <= p <= hi
    ensures var held := Fold(0.0, Flat(symbol), fills).value.position;
            && (held.quantity == 0.0 ==> held.averagePrice == 0.0)
            && (held.quantity > 0.0 ==> OpenLots(Flat(symbol), fills) != [] && lo <= held.averagePrice <= hi)
  {
    if |fills| > 0 {
      var init, last := fills[..|fills| - 1], fills[|fills| - 1];
      var before := Fold(0.0, Flat(symbol), init).value.position;
      var after := Fold(0.0, Flat(symbol), fills).value.position;
      var lots := OpenLots(Flat(symbol), fills);
      if last.side == Buy {
        assert lots[|lots| - 1] == last.price;
        assert last.price in lots;
        forall p | p in OpenLots(Flat(symbol), init)
          ensures lo <= p <= hi
        {
          assert p in lots;
        }
        AverageWithinOpenLots(symbol, init, lo, hi);
        AverageMoves(before, last, lo, hi);
      } else if after.quantity > 0.0 {
        AverageWithinOpenLots(symbol, init, lo, hi);
      }
    }
  }

  lemma AverageMoves(before: Position, fill: Fill, lo: real, hi: real)
    requires before.Valid() && fill.Valid() && before.Apply(fill).Success?
    requires fill.side == Buy && lo <= fill.price <= hi
    requires before.quantity > 0.0 ==> lo <= before.averagePrice <= hi
    ensures lo <= before.Apply(fill).value.averagePrice <= hi
  {
    var after := before.Apply(fill).value;
    HoldingAtCost(before, fill);
    var a := if before.quantity == 0.0 then fill.price else before.averagePrice;
    assert before.quantity * a == before.quantity * before.averagePrice;
    WeightedMean(before.quantity, a, fill.quantity, fill.price, after.averagePrice, lo, hi);
  }

  lemma WeightedMean(q: real, a: real, r: real, b: real, mean: real, lo: real, hi: real)
    requires q >= 0.0 && r > 0.0 && lo <= a <= hi && lo <= b <= hi
    requires (q + r) * mean == q * a + r * b
    ensures lo <= mean <= hi
  {
    ProductOfNonNegatives(q, a - lo);
    ProductOfNonNegatives(q, hi - a);
    ProductOfNonNegatives(r, b - lo);
    ProductOfNonNegatives(r, hi - b);
    assert (q + r) * lo <= (q + r) * mean by {
      assert (q + r) * lo == q * lo + r * lo;
    }
    assert (q + r) * mean <= (q + r) * hi by {
      assert (q + r) * hi == q * hi + r * hi;
    }
    ScaleOrder(lo, mean, q + r);
    ScaleOrder(mean, hi, q + r);
  }

  predicate AllBuys(fills: seq<Fill>) {
    forall i :: 0 <= i < |fills| ==> fills[i].side == Buy
  }

  lemma {:induction false} BuysRealiseNothing(position: Position, fills: seq<Fill>)
    requires position.Valid() && ValidFills(fills) && AllBuys(fills)
    ensures Realised(position, fills) == 0.0
  {
    if |fills| > 0 {
      BuysRealiseNothing(position, fills[..|fills| - 1]);
    }
  }

  /** Purchases that moved `flow` of cash and `bought` of quantity for `fees`
      turn `cash` and `position` into `u`. */
  predicate Purchased(cash: real, position: Position, flow: real, bought: real, fees: real, u: LedgerUpdate) {
    && u.cash == cash + flow
    && u.position.symbol == position.symbol
    && u.position.quantity == position.quantity + bought
    && u.fees == fees
    && u.position.quantity * u.position.averagePrice == position.quantity * position.averagePrice - flow - fees
  }

  /** For purchases the fold is a closed form of the totals. */
  lemma PurchasesInClosedForm(cash: real, position: Position, fills: seq<Fill>)
    requires position.Valid() && ValidFills(fills) && AllBuys(fills)
    requires Fold(cash, position, fills).Success?
    ensures Purchased(cash, position, CashFlows(fills), SignedQuantity(fills), Fees(fills), Fold(cash, position, fills).value)
  {
    FoldConserves(cash, position, fills);
    BuysRealiseNothing(position, fills);
    RealisedProfitIdentity(cash, position, fills);
  }

  lemma ClosedFormIsUnique(
      cash: real, position: Position, flow: real, bought: real, fees: real, u: LedgerUpdate, v: LedgerUpdate)
    requires Purchased(cash, position, flow, bought, fees, u) && Purchased(cash, position, flow, bought, fees, v)
    requires u.position.quantity > 0.0
    ensures u == v
  {
    ScaleOrder(u.position.averagePrice, v.position.averagePrice, u.position.quantity);
    ScaleOrder(v.position.averagePrice, u.position.averagePrice, u.position.quantity);
  }

  /** The order in which an execution's purchases are reported does not matter. */
  lemma PurchaseOrderIsIrrelevant(cash: real, position: Position, fills: seq<Fill>, shuffled: seq<Fill>)
    requires position.Valid() && ValidFills(fills) && ValidFills(shuffled)
    requires AllBuys(fills) && multiset(fills) == multiset(shuffled)
    ensures Fold(cash, position, fills) == Fold(cash, position, shuffled)
  {
    ShuffledPurchases(cash, position, fills, shuffled);
    if |fills| == 0 {
      assert |multiset(shuffled)| == |multiset(fills)| == 0;
    } else if Fold(cash, position, fills).Failure? {
      PurchasesFailBySymbol(cash, position, fills);
      PurchasesFailBySymbol(cash, position, shuffled);
    } else {
      QuantityGrows(cash, position, fills);
      TotalIgnoresOrder(CashMoved, fills, shuffled);
      TotalIgnoresOrder(QuantityMoved, fills, shuffled);
      TotalIgnoresOrder(FeeCharged, fills, shuffled);
      PurchasesInClosedForm(cash, position, fills);
      PurchasesInClosedForm(cash, position, shuffled);
      ClosedFormIsUnique(cash, position, CashFlows(fills), SignedQuantity(fills), Fees(fills),
                         Fold(cash, position, fills).value, Fold(cash, position, shuffled).value);
    }
  }

  lemma ShuffledPurchases(cash: real, position: Position, fills: seq<Fill>, shuffled: seq<Fill>)
    requires position.Valid() && ValidFills(fills) && ValidFills(shuffled)
    requires AllBuys(fills) && multiset(fills) == multiset(shuffled)
    ensures AllBuys(shuffled)
    ensures Fold(cash, position, fills).Success? == Fold(cash, position, shuffled).Success?
  {
    SameMembers(fills, shuffled);
    QuantityGrows(cash, position, fills);
    assert forall i :: 0 <= i < |shuffled| ==> shuffled[i] in fills;
    QuantityGrows(cash, position, shuffled);
    assert forall i :: 0 <= i < |fills| ==> fills[i] in shuffled;
  }

  lemma SameMembers(fills: seq<Fill>, shuffled: seq<Fill>)
    requires multiset(fills) == multiset(shuffled)
    ensures forall fill :: fill in fills <==> fill in shuffled
  {
    assert forall fill :: fill in fills <==> fill in multiset(fills);
    assert forall fill :: fill in shuffled <==> fill in multiset(shuffled);
  }

  /** A purchase can fail only by being of another symbol. */
  lemma {:induction false} PurchasesFailBySymbol(cash: real, position: Position, fills: seq<Fill>)
    requires position.Valid() && ValidFills(fills) && AllBuys(fills)
    requires Fold(cash, position, fills).Failure?
    ensures Fold(cash, position, fills) == Failure(SymbolMismatch)
  {
    var init := fills[..|fills| - 1];
    if Fold(cash, position, init).Failure? {
      PurchasesFailBySymbol(cash, position, init);
    }
  }

  lemma {:induction false} QuantityGrows(cash: real, position: Position, fills: seq<Fill>)
    requires position.Valid() && ValidFills(fills) && AllBuys(fills)
    ensures (forall i :: 0 <= i < |fills| ==> fills[i].symbol == position.symbol) <==> Fold(cash, position, fills).Success?
    ensures Fold(cash, position, fills).Success? && |fills| > 0 ==>
              Fold(cash, position, fills).value.position.quantity > position.quantity
  {
    if |fills| > 0 {
      var init, last := fills[..|fills| - 1], fills[|fills| - 1];
      QuantityGrows(cash, position, init);
      if forall i :: 0 <= i < |init| ==> init[i].symbol == position.symbol {
        assert (forall i :: 0 <= i < |fills| ==> fills[i].symbol == position.symbol) <==> last.symbol == position.symbol;
      } else {
        var i :| 0 <= i < |init| && init[i].symbol != position.symbol;
        assert fills[i].symbol != position.symbol;
      }
    }
  }
}
