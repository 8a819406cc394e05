/** The in-process venue: a seeded price walk, and complete fills at a fixed
    slippage and fee. The generator's draws are parameters. */
module Simulator {
  import opened Results
  import opened Decimals
  import opened Timeframes
  import opened Market
  import opened Orders

  const BPS := 10_000.0
  const PRICE_STEP := 0.01

  datatype SimulatedVenue = SimulatedVenue(startPrice: real, volatilityBps: real, feeBps: real, slippageBps: real)
  {
    predicate Valid() {
      startPrice > 0.0 && volatilityBps > 0.0 && feeBps >= 0.0 && slippageBps >= 0.0
    }

    function SignedSlippage(side: Side): real {
      if side == Buy then slippageBps / BPS else -(slippageBps / BPS)
    }

    function FillPrice(side: Side, referencePrice: real): real {
      RoundHalfUp(SlippedPrice(side, referencePrice), CENT)
    }

    function SlippedPrice(side: Side, referencePrice: real): real {
      referencePrice * (1.0 + SignedSlippage(side))
    }

    function FeeFor(quantity: real, price: real): real {
      RoundHalfUp(FeeDue(quantity, price), CENT)
    }

    function FeeDue(quantity: real, price: real): real {
      quantity * price * feeBps / BPS
    }

    function FillOf(intent: OrderIntent, clock: int): Fill {
      var price := FillPrice(intent.side, intent.referencePrice);
      Fill(intent.clientOrderId, intent.symbol, intent.side, intent.quantity, price, FeeFor(intent.quantity, price), clock)
    }

    /** The venue's answer, or None when the fill does not pass validation. */
    function Submit(intent: OrderIntent, clock: int): Option<OrderExecution> {
      var fill := FillOf(intent, clock);
      if !fill.Valid() then None
      else Some(OrderExecution(intent, Filled, Some("sim-" + intent.clientOrderId), [fill]))
    }

    function NextPrice(price: real, draw: Draw): real {
      Max(PRICE_STEP, price * (1.0 + draw.closeShock * volatilityBps / BPS))
    }

    function Drift(gauss: real): real {
      Abs(gauss) * volatilityBps / BPS
    }

    /** The walk's price before bar `i`. */
    function PriceBefore(draws: seq<Draw>, i: nat): real
      requires i <= |draws|
    {
      if i == 0 then startPrice else NextPrice(PriceBefore(draws, i - 1), draws[i - 1])
    }

    function LowOf(openPrice: real, closePrice: real, draw: Draw): real {
      var low := Min(openPrice, closePrice) * (1.0 - Drift(draw.lowGauss));
      Min(Min(low, openPrice), closePrice)
    }

    function HighOf(openPrice: real, closePrice: real, draw: Draw): real {
      var high := Max(openPrice, closePrice) * (1.0 + Drift(draw.highGauss));
      Max(Max(high, openPrice), closePrice)
    }

    function Bar(symbol: string, openTime: int, openPrice: real, closePrice: real, draw: Draw): Candle {
      Candle(symbol, openTime,
             RoundHalfUp(openPrice, CENT), RoundHalfUp(HighOf(openPrice, closePrice, draw), CENT),
             RoundHalfUp(LowOf(openPrice, closePrice, draw), CENT), RoundHalfUp(closePrice, CENT),
             draw.volume as real)
    }

    /** The low of bar `i` before it is rounded. */
    function RawLow(draws: seq<Draw>, i: nat): real
      requires i < |draws|
    {
      LowOf(PriceBefore(draws, i), PriceBefore(draws, i + 1), draws[i])
    }

    function BarAt(symbol: string, openTime: int, draws: seq<Draw>, i: nat): Candle
      requires i < |draws|
    {
      Bar(symbol, openTime, PriceBefore(draws, i), PriceBefore(draws, i + 1), draws[i])
    }

    /** Start of the newest complete bar. */
    function LastOpen(clock: int, step: int): int
      requires step > 0
    {
      FloorToStep(clock, step) - step
    }

    method FetchSnapshot(symbol: string, timeframe: string, limit: int, clock: int, draws: seq<Draw>)
      returns (r: Result<MarketSnapshot, FetchError>)
      requires Valid() && limit <= |draws|
      requires forall i :: 0 <= i < |draws| ==> draws[i].Valid()
      ensures ParseTimeframe(timeframe).Failure? ==> r == Failure(BadTimeframe)
      ensures ParseTimeframe(timeframe).Success? ==>
                && (r.Success? <==> limit >= 1 && forall i :: 0 <= i < limit ==> RawLow(draws, i) * CENT >= 0.5)
                && (r.Failure? ==> r == Failure(if limit < 1 then NoCandles else InvalidCandle))
      ensures r.Success? ==>
                var step := ParseTimeframe(timeframe).value;
                && r.value.Valid() && r.value.symbol == symbol && r.value.timeframe == timeframe
                && |r.value.candles| == limit
                && r.value.AsOf() == LastOpen(clock, step)
                && (forall i {:trigger r.value.candles[i]} :: 0 <= i < limit ==>
                      r.value.candles[i] == BarAt(symbol, LastOpen(clock, step) - step * (limit - 1 - i), draws, i))
      ensures r.Success? ==>
                && r.value.LastPrice() == RoundHalfUp(PriceBefore(draws, limit), CENT)
                && forall i {:trigger r.value.Closes()[i]} :: 0 <= i < limit ==>
                     r.value.Closes()[i] == RoundHalfUp(PriceBefore(draws, i + 1), CENT)
      ensures r.Success? ==> forall i, j :: 0 <= i < |r.value.candles| && j == i + 1 < |r.value.candles| ==>
                r.value.candles[j].open == r.value.candles[i].close
    {
      hide NextPrice, LowOf, HighOf, RoundHalfUp, ParseTimeframe;
      var parsed := ParseTimeframe(timeframe);
      if parsed.Failure? {
        return Failure(BadTimeframe);
      }
      ParsedTimeframe(timeframe);
      var step := parsed.value;
      var lastOpen := FloorToStep(clock, step) - step;
      var firstOpen := lastOpen - step * (limit - 1);
      var price := startPrice;
      var candles: seq<Candle> := [];
      var index := 0;
      while index < limit
        invariant 0 <= index && (index <= limit || index == 0)
        invariant index <= |draws|
        invariant price == PriceBefore(draws, index)
        invariant |candles| == index
        invariant forall i :: 0 <= i < index ==> RawLow(draws, i) * CENT >= 0.5
        invariant forall i {:trigger candles[i]} :: 0 <= i < index ==>
                    && candles[i] == BarAt(symbol, LastOpen(clock, step) - step * (limit - 1 - i), draws, i)
                    && candles[i].Valid()
      {
        var openPrice := price;
        var closePrice := NextPrice(openPrice, draws[index]);
        var candle := Bar(symbol, firstOpen + step * index, openPrice, closePrice, draws[index]);
        SameOpenTime(step, lastOpen, limit, index);
        BarValidity(symbol, firstOpen + step * index, openPrice, closePrice, draws[index]);
        if !candle.Valid() {
          assert !(RawLow(draws, index) * CENT >= 0.5);
          return Failure(InvalidCandle);
        }
        candles := candles + [candle];
        price := closePrice;
        index := index + 1;
      }
      if |candles| == 0 {
        return Failure(NoCandles);
      }
      var snapshot := MarketSnapshot(symbol, timeframe, candles);
      forall i, j | 0 <= i < j < limit
        ensures candles[i].openTime < candles[j].openTime
      {
        LaterBarsOpenLater(step, limit - 1 - j, limit - 1 - i);
      }
      return Success(snapshot);
    }

    /** A bar passes validation exactly when its low does not round away to zero. */
    lemma BarValidity(symbol: string, openTime: int, openPrice: real, closePrice: real, draw: Draw)
      requires Valid() && draw.Valid()
      ensures Bar(symbol, openTime, openPrice, closePrice, draw).Valid() <==>
                LowOf(openPrice, closePrice, draw) * CENT >= 0.5
    {
      var lo, hi := LowOf(openPrice, closePrice, draw), HighOf(openPrice, closePrice, draw);
      RoundHalfUpMonotone(lo, openPrice, CENT);
      RoundHalfUpMonotone(lo, closePrice, CENT);
      RoundHalfUpMonotone(openPrice, hi, CENT);
      RoundHalfUpMonotone(closePrice, hi, CENT);
      RoundHalfUpPositive(lo, CENT);
    }

    lemma {:induction false} PricesStayAbove(draws: seq<Draw>, i: nat)
      requires Valid() && startPrice >= 0.01 && i <= |draws|
      ensures PriceBefore(draws, i) >= 0.01
    {
      if i > 0 {
        PricesStayAbove(draws, i - 1);
      }
    }

    /** With a start price of a cent or more and downward drifts of at most one
        half, no draw makes a bar invalid. */
    lemma ModestDriftNeverFails(draws: seq<Draw>, i: nat)
      requires Valid() && startPrice >= 0.01 && i < |draws|
      requires Drift(draws[i].lowGauss) <= 0.5
      ensures RawLow(draws, i) * CENT >= 0.5
    {
      hide LowOf, Drift;
      PricesStayAbove(draws, i);
      PricesStayAbove(draws, i + 1);
      LowIsKept(PriceBefore(draws, i), PriceBefore(draws, i + 1), draws[i]);
    }

    lemma LowIsKept(openPrice: real, closePrice: real, draw: Draw)
      requires Valid() && openPrice >= 0.01 && closePrice >= 0.01 && Drift(draw.lowGauss) <= 0.5
      ensures LowOf(openPrice, closePrice, draw) * CENT >= 0.5
    {
      hide Drift;
      HalfIsKept(Min(openPrice, closePrice), 1.0 - Drift(draw.lowGauss));
    }

    /** A gateway clock that is not behind the cycle's makes the newest bar less
        than two bars old, so it is never stale. */
    lemma NewestBarIsFresh(clock: int, now: int, step: int)
      requires step > 0 && now <= clock
      ensures LastOpen(clock, step) % step == 0
      ensures now - LastOpen(clock, step) < 2 * step
      ensures !IsStale(LastOpen(clock, step), step, now, 3)
    {
      FloorIsBarStart(clock, step);
      assert LastOpen(clock, step) == step * (clock / step - 1);
      MultiplesAreAligned(clock / step - 1, step);
    }

    /** Fills are on the cent grid in price and fee, and complete. */
    lemma FillIsOnGrid(intent: OrderIntent, clock: int)
      requires Valid() && intent.Valid()
      ensures var fill := FillOf(intent, clock);
              && OnGrid(fill.price, CENT) && OnGrid(fill.fee, CENT)
              && (fill.price > 0.0 ==> fill.Valid())
      ensures Submit(intent, clock).Some? <==> SlippedPrice(intent.side, intent.referencePrice) * CENT >= 0.5
    {
      hide FeeFor, RoundHalfUp, SlippedPrice;
      var raw := SlippedPrice(intent.side, intent.referencePrice);
      var price := FillPrice(intent.side, intent.referencePrice);
      RoundHalfUpIsNearest(raw, CENT);
      RoundHalfUpPositive(raw, CENT);
      FeeIsOnGrid(intent.quantity, price);
    }

    /** The fill price is the slipped reference price rounded to cents, so within half a
        cent of it. */
    lemma FillIsNearReference(side: Side, referencePrice: real)
      ensures var slipped := referencePrice * (1.0 + if side == Buy then slippageBps / 10_000.0 else -(slippageBps / 10_000.0));
              && RoundsTo(slipped, FillPrice(side, referencePrice), 100.0)
              && -0.005 <= FillPrice(side, referencePrice) - slipped <= 0.005
    {
      hide RoundHalfUp, RoundsTo;
      var slipped := SlippedPrice(side, referencePrice);
      RoundHalfUpIsNearest(slipped, CENT);
      RoundHalfUpExactlyWhen(slipped, RoundHalfUp(slipped, CENT), CENT);
      assert slipped == referencePrice * (1.0 + if side == Buy then slippageBps / 10_000.0 else -(slippageBps / 10_000.0));
    }

    /** The fee is the proportional share of the notional rounded to cents. */
    lemma FeeIsNearShare(quantity: real, price: real)
      ensures RoundsTo(quantity * price * (feeBps / 10_000.0), FeeFor(quantity, price), 100.0)
      ensures -0.005 <= FeeFor(quantity, price) - quantity * price * (feeBps / 10_000.0) <= 0.005
    {
      hide RoundHalfUp, RoundsTo;
      var due := FeeDue(quantity, price);
      RoundHalfUpIsNearest(due, CENT);
      RoundHalfUpExactlyWhen(due, RoundHalfUp(due, CENT), CENT);
      assert due == quantity * price * (feeBps / 10_000.0);
    }

    /** The answer to an order: complete, at once, under the order's own id. */
    lemma AnswerToOrder(intent: OrderIntent, clock: int)
      requires Submit(intent, clock).Some?
      ensures var x := Submit(intent, clock).value;
              && x.intent == intent && x.status == Filled && x.venueOrderId == Some("sim-" + intent.clientOrderId)
              && x.fills == [Fill(intent.clientOrderId, intent.symbol, intent.side, intent.quantity,
                                  FillPrice(intent.side, intent.referencePrice),
                                  FeeFor(intent.quantity, FillPrice(intent.side, intent.referencePrice)), clock)]
    {
    }

    /** A bar holds the walk's two prices and its shadows in cents, and the drawn volume. */
    lemma BarHolds(symbol: string, openTime: int, openPrice: real, closePrice: real, draw: Draw)
      ensures var bar := Bar(symbol, openTime, openPrice, closePrice, draw);
              && bar.symbol == symbol && bar.openTime == openTime && bar.volume == draw.volume as real
              && RoundsTo(openPrice, bar.open, 100.0) && RoundsTo(closePrice, bar.close, 100.0)
              && RoundsTo(HighOf(openPrice, closePrice, draw), bar.high, 100.0)
              && RoundsTo(LowOf(openPrice, closePrice, draw), bar.low, 100.0)
    {
      hide RoundHalfUp, RoundsTo, HighOf, LowOf;
      RoundHalfUpExactlyWhen(openPrice, RoundHalfUp(openPrice, CENT), CENT);
      RoundHalfUpExactlyWhen(closePrice, RoundHalfUp(closePrice, CENT), CENT);
      var high, low := HighOf(openPrice, closePrice, draw), LowOf(openPrice, closePrice, draw);
      RoundHalfUpExactlyWhen(high, RoundHalfUp(high, CENT), CENT);
      RoundHalfUpExactlyWhen(low, RoundHalfUp(low, CENT), CENT);
    }

    /** How the walk moves: by the drawn shock times the volatility, relative to the
        price, but never below one cent. */
    lemma WalkFollowsShocks(draws: seq<Draw>, i: nat)
      requires i < |draws|
      ensures var price, next := PriceBefore(draws, i), PriceBefore(draws, i + 1);
              var moved := price * draws[i].closeShock * volatilityBps / 10_000.0;
              && next >= 0.01 && next - price >= moved
              && (next > 0.01 ==> next - price == moved)
    {
      var price, shock := PriceBefore(draws, i), draws[i].closeShock * volatilityBps / BPS;
      assert price * (1.0 + shock) == price + price * shock;
      assert price * shock == price * draws[i].closeShock * volatilityBps / 10_000.0;
    }

    /** The shadows of a bar reach the drawn drift beyond its higher and lower end; the
        clamps to open and close never cut anything. */
    lemma ShadowsAreDrift(openPrice: real, closePrice: real, draw: Draw)
      requires Valid() && openPrice >= 0.0 && closePrice >= 0.0
      ensures var top, bottom := Max(openPrice, closePrice), Min(openPrice, closePrice);
              && HighOf(openPrice, closePrice, draw) - top == top * (Abs(draw.highGauss) * volatilityBps / 10_000.0)
              && bottom - LowOf(openPrice, closePrice, draw) == bottom * (Abs(draw.lowGauss) * volatilityBps / 10_000.0)
    {
      Widens(Max(openPrice, closePrice), Drift(draw.highGauss));
      Widens(Min(openPrice, closePrice), Drift(draw.lowGauss));
      DriftIsNonNegative(draw.highGauss);
      DriftIsNonNegative(draw.lowGauss);
    }

    lemma DriftIsNonNegative(gauss: real)
      requires Valid()
      ensures Drift(gauss) >= 0.0 && Drift(gauss) == Abs(gauss) * volatilityBps / 10_000.0
    {
      ProductOfNonNegatives(Abs(gauss), volatilityBps);
    }

    lemma FeeIsOnGrid(quantity: real, price: real)
      requires Valid() && quantity > 0.0
      ensures OnGrid(FeeFor(quantity, price), CENT)
      ensures price > 0.0 ==> FeeFor(quantity, price) >= 0.0
    {
      hide RoundHalfUp, OnGrid, FeeDue;
      RoundHalfUpIsNearest(FeeDue(quantity, price), CENT);
      if price > 0.0 {
        FeeDueIsNonNegative(quantity, price);
        RoundHalfUpPositive(FeeDue(quantity, price), CENT);
      }
    }

    lemma FeeDueIsNonNegative(quantity: real, price: real)
      requires Valid() && quantity > 0.0 && price > 0.0
      ensures FeeDue(quantity, price) >= 0.0
    {
      ProductOfNonNegatives(quantity, price);
      ProductOfNonNegatives(quantity * price, feeBps);
    }

    lemma SlippedPriceMoves(side: Side, referencePrice: real)
      requires Valid() && referencePrice > 0.0
      ensures side == Buy ==> SlippedPrice(side, referencePrice) >= referencePrice
      ensures side == Sell ==> SlippedPrice(side, referencePrice) <= referencePrice
    {
      var s := slippageBps / BPS;
      ProductOfNonNegatives(referencePrice, s);
      assert referencePrice * (1.0 + s) == referencePrice + referencePrice * s;
      assert referencePrice * (1.0 + -s) == referencePrice - referencePrice * s;
    }

    /** Slippage works against the bot whenever the reference price is in cents. */
    lemma SlippageCosts(side: Side, referencePrice: real)
      requires Valid() && referencePrice > 0.0 && OnGrid(referencePrice, CENT)
      ensures side == Buy ==> FillPrice(side, referencePrice) >= referencePrice
      ensures side == Sell ==> FillPrice(side, referencePrice) <= referencePrice
    {
      hide SlippedPrice, RoundHalfUp;
      SlippedPriceMoves(side, referencePrice);
      RoundHalfUpIsNearest(referencePrice, CENT);
      if side == Buy {
        RoundHalfUpMonotone(referencePrice, SlippedPrice(side, referencePrice), CENT);
      } else {
        RoundHalfUpMonotone(SlippedPrice(side, referencePrice), referencePrice, CENT);
      }
    }

    /** For any other reference price, rounding to cents can outweigh the slippage.
        It does not exactly when the slipped price reaches half a cent below the
        next cent (buying), or stays below half a cent above the last one (selling). */
    lemma SlippageCostsExactlyWhen(side: Side, referencePrice: real)
      requires Valid() && referencePrice > 0.0
      ensures side == Buy ==>
                (FillPrice(side, referencePrice) >= referencePrice <==>
                 SlippedPrice(side, referencePrice) * CENT >= CentsUp(referencePrice) as real - 0.5)
      ensures side == Sell ==>
                (FillPrice(side, referencePrice) <= referencePrice <==>
                 SlippedPrice(side, referencePrice) * CENT < (referencePrice * CENT).Floor as real + 0.5)
    {
      hide SlippedPrice;
      SlippedPriceMoves(side, referencePrice);
      if side == Buy {
        RoundedAtLeast(SlippedPrice(side, referencePrice), referencePrice);
      }
      RoundedAtMost(SlippedPrice(side, referencePrice), referencePrice);
    }
  }

  /** Whole cents, rounded up. */
  function CentsUp(x: real): int {
    -((-(x * CENT)).Floor)
  }

  lemma RoundedAtLeast(x: real, bound: real)
    requires x >= 0.0 && bound >= 0.0
    ensures RoundHalfUp(x, CENT) >= bound <==> x * CENT >= CentsUp(bound) as real - 0.5
  {
    var n := Nearest(x * CENT);
    UnitsOverScale(n, CENT);
    assert RoundHalfUp(x, CENT) >= bound <==> n as real >= bound * CENT;
    assert n as real >= bound * CENT <==> n >= CentsUp(bound);
  }

  lemma RoundedAtMost(x: real, bound: real)
    requires bound >= 0.0
    ensures RoundHalfUp(x, CENT) <= bound <==> x * CENT < (bound * CENT).Floor as real + 0.5
  {
    var n := Nearest(x * CENT);
    UnitsOverScale(n, CENT);
    assert RoundHalfUp(x, CENT) <= bound <==> n as real <= bound * CENT;
    assert n as real <= bound * CENT <==> n <= (bound * CENT).Floor;
  }

  /** Off the cent grid the venue's promise fails: with no slippage at all, a mark
      of 0.014 is bought at 0.01. */
  lemma SubCentMarkIsBoughtBelow(venue: SimulatedVenue)
    requires venue.Valid() && venue.slippageBps == 0.0
    ensures venue.FillPrice(Buy, 0.014) < 0.014
  {
    assert venue.SlippedPrice(Buy, 0.014) == 0.014;
    assert Nearest(1.4) == 1;
  }

  datatype Draw = Draw(closeShock: real, highGauss: real, lowGauss: real, volume: int)
  {
    predicate Valid() {
      1 <= volume < 1000
    }
  }

  datatype FetchError = BadTimeframe | InvalidCandle | NoCandles

  lemma LaterBarsOpenLater(step: int, fewer: int, more: int)
    requires step > 0 && fewer < more
    ensures step * fewer < step * more
  {
    NegativeMultiple(fewer - more, step);
    assert step * (fewer - more) == step * fewer - step * more;
  }

  lemma SameOpenTime(step: int, lastOpen: int, limit: int, index: int)
    ensures lastOpen - step * (limit - 1) + step * index == lastOpen - step * (limit - 1 - index)
  {
    assert step * (limit - 1) == step * (limit - 1 - index) + step * index;
  }

  lemma Widens(price: real, drift: real)
    requires price >= 0.0
    ensures price * (1.0 + drift) - price == price * drift
    ensures price - price * (1.0 - drift) == price * drift
    ensures drift >= 0.0 ==> price * drift >= 0.0
  {
  }

  lemma HalfIsKept(price: real, kept: real)
    requires price >= 0.01 && kept >= 0.5
    ensures price * kept * CENT >= 0.5
  {
    ProductOfNonNegatives(price - 0.01, kept);
    assert (price - 0.01) * kept == price * kept - 0.01 * kept;
  }
}
