/** Orders, what the venue answers, and the opinions that lead to them. */
module Orders {
  import opened Results

  datatype Action = GoLong | GoFlat | Hold

  datatype Signal = Signal(symbol: string, action: Action, strength: real, asOf: int)
  {
    predicate Valid() {
      0.0 <= strength <= 1.0
    }
  }

  datatype Side = Buy | Sell

  datatype OrderStatus = Filled | PartiallyFilled | Rejected

  datatype OrderIntent = OrderIntent(
    clientOrderId: string, symbol: string, side: Side, quantity: real, referencePrice: real, createdAt: int)
  {
    predicate Valid() {
      quantity > 0.0 && referencePrice > 0.0
    }
  }

  datatype Fill = Fill(
    clientOrderId: string, symbol: string, side: Side, quantity: real, price: real, fee: real, filledAt: int)
  {
    predicate Valid() {
      quantity > 0.0 && price > 0.0 && fee >= 0.0
    }

    function Notional(): real {
      quantity * price
    }

    /** What the fill does to cash: fees are always paid, on either side. */
    function CashFlow(): real {
      if side == Buy then -(Notional() + fee) else Notional() - fee
    }

    function SignedQuantity(): real {
      if side == Buy then quantity else -quantity
    }
  }

  datatype OrderExecution = OrderExecution(
    intent: OrderIntent, status: OrderStatus, venueOrderId: Option<string>, fills: seq<Fill>)

  predicate ValidFills(fills: seq<Fill>) {
    forall i :: 0 <= i < |fills| ==> fills[i].Valid()
  }

  datatype Measure = OrderedQuantity | FeeCharged | CashMoved | QuantityMoved
  {
    function Of(fill: Fill): real {
      match this
      case OrderedQuantity => fill.quantity
      case FeeCharged => fill.fee
      case CashMoved => fill.CashFlow()
      case QuantityMoved => fill.SignedQuantity()
    }
  }

  function Total(measure: Measure, fills: seq<Fill>): real {
    if |fills| == 0 then 0.0
    else Total(measure, fills[..|fills| - 1]) + measure.Of(fills[|fills| - 1])
  }

  function FilledQuantity(fills: seq<Fill>): real {
    Total(OrderedQuantity, fills)
  }

  function Fees(fills: seq<Fill>): real {
    Total(FeeCharged, fills)
  }

  function CashFlows(fills: seq<Fill>): real {
    Total(CashMoved, fills)
  }

  function SignedQuantity(fills: seq<Fill>): real {
    Total(QuantityMoved, fills)
  }

  lemma {:induction false} TotalJoins(measure: Measure, first: seq<Fill>, second: seq<Fill>)
    ensures Total(measure, first + second) == Total(measure, first) + Total(measure, second)
  {
    if |second| == 0 {
      assert first + second == first;
    } else {
      TotalJoins(measure, first, second[..|second| - 1]);
      assert (first + second)[..|first + second| - 1] == first + second[..|second| - 1];
    }
  }

  function Without<T>(values: seq<T>, k: nat): seq<T>
    requires k < |values|
  {
    values[..k] + values[k + 1..]
  }

  lemma TotalWithout(measure: Measure, fills: seq<Fill>, k: nat)
    requires k < |fills|
    ensures Total(measure, fills) == Total(measure, Without(fills, k)) + measure.Of(fills[k])
  {
    var before, after := fills[..k], fills[k + 1..];
    assert fills == (before + [fills[k]]) + after;
    TotalJoins(measure, before + [fills[k]], after);
    TotalJoins(measure, before, after);
    assert (before + [fills[k]])[..k] == before;
  }

  lemma MultisetWithout<T>(values: seq<T>, k: nat)
    requires k < |values|
    ensures multiset(Without(values, k)) == multiset(values) - multiset{values[k]}
  {
    assert values == values[..k] + [values[k]] + values[k + 1..];
  }

  /** The last of some values, found among the same values in another order. */
  lemma FoundAgain<T>(values: seq<T>, shuffled: seq<T>) returns (k: nat)
    requires multiset(values) == multiset(shuffled) && |values| > 0
    ensures k < |shuffled| && shuffled[k] == values[|values| - 1]
    ensures multiset(values[..|values| - 1]) == multiset(Without(shuffled, k))
  {
    var n := |values| - 1;
    assert values[n] in multiset(shuffled);
    k :| 0 <= k < |shuffled| && shuffled[k] == values[n];
    MultisetWithout(values, n);
    MultisetWithout(shuffled, k);
    assert Without(values, n) == values[..n];
  }

  /** Totals do not depend on the order of the fills. */
  lemma {:induction false} TotalIgnoresOrder(measure: Measure, fills: seq<Fill>, shuffled: seq<Fill>)
    requires multiset(fills) == multiset(shuffled)
    ensures Total(measure, fills) == Total(measure, shuffled)
  {
    if |fills| == 0 {
      assert |multiset(shuffled)| == |multiset(fills)| == 0;
    } else {
      var k := FoundAgain(fills, shuffled);
      TotalIgnoresOrder(measure, fills[..|fills| - 1], Without(shuffled, k));
      TotalWithout(measure, shuffled, k);
    }
  }
}
