/** Market data as one cycle observes it. */
module Market {
  import opened Decimals

  datatype Candle = Candle(
    symbol: string, openTime: int, open: real, high: real, low: real, close: real, volume: real)
  {
    predicate Valid() {
      && open > 0.0 && high > 0.0 && low > 0.0 && close > 0.0 && volume >= 0.0
      && low <= high
      && low <= open <= high
      && low <= close <= high
    }
  }

  datatype MarketSnapshot = MarketSnapshot(symbol: string, timeframe: string, candles: seq<Candle>)
  {
    predicate Valid() {
      && |candles| > 0
      && (forall i :: 0 <= i < |candles| ==> candles[i].Valid() && candles[i].symbol == symbol)
      && (forall i, j :: 0 <= i < j < |candles| ==> candles[i].openTime < candles[j].openTime)
    }

    function Last(): Candle
      requires |candles| > 0
    {
      candles[|candles| - 1]
    }

    function LastPrice(): real
      requires |candles| > 0
    {
      Last().close
    }

    function AsOf(): int
      requires |candles| > 0
    {
      Last().openTime
    }

    function Closes(): seq<real> {
      seq(|candles|, i requires 0 <= i < |candles| => candles[i].close)
    }
  }

  /** A candle is valid exactly when its body lies between a positive low and its high. */
  lemma CandleValidExactlyWhen(candle: Candle)
    ensures candle.Valid() <==>
              && 0.0 < candle.low <= Min(candle.open, candle.close)
              && Max(candle.open, candle.close) <= candle.high
              && candle.volume >= 0.0
  {
  }

  /** A snapshot is valid exactly when it has candles, all valid and of its symbol, each
      opening after the one before it. */
  lemma SnapshotValidExactlyWhen(snapshot: MarketSnapshot)
    ensures snapshot.Valid() <==>
              && |snapshot.candles| > 0
              && (forall i :: 0 <= i < |snapshot.candles| ==>
                    snapshot.candles[i].Valid() && snapshot.candles[i].symbol == snapshot.symbol)
              && EachAfterTheOther(snapshot.candles)
  {
    if EachAfterTheOther(snapshot.candles) {
      forall i, j | 0 <= i < j < |snapshot.candles|
        ensures snapshot.candles[i].openTime < snapshot.candles[j].openTime
      {
        LaterOpensLater(snapshot.candles, i, j);
      }
    }
  }

  predicate EachAfterTheOther(candles: seq<Candle>) {
    forall i, j :: 0 <= i && j == i + 1 < |candles| ==> candles[i].openTime < candles[j].openTime
  }

  lemma {:induction false} LaterOpensLater(candles: seq<Candle>, i: nat, j: nat)
    requires EachAfterTheOther(candles) && i < j < |candles|
    ensures candles[i].openTime < candles[j].openTime
  {
    if i + 1 < j {
      LaterOpensLater(candles, i, j - 1);
    }
    assert candles[j - 1].openTime < candles[j].openTime;
  }
}
