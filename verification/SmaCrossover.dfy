/** The moving average crossover strategy, and what it says over a whole series. */
module SmaCrossover {
  import opened Decimals
  import opened Market
  import opened Orders

  datatype SmaConfig = SmaConfig(fastWindow: int, slowWindow: int, strengthScale: real)
  {
    predicate Valid() {
      2 <= fastWindow < slowWindow && strengthScale > 0.0
    }
  }

  datatype Opinion = Opinion(action: Action, strength: real)

  function Sum(values: seq<real>): real {
    if |values| == 0 then 0.0 else Sum(values[..|values| - 1]) + values[|values| - 1]
  }

  function Mean(values: seq<real>): real
    requires |values| > 0
  {
    Sum(values) / |values| as real
  }

  predicate AllPositive(values: seq<real>) {
    forall i :: 0 <= i < |values| ==> values[i] > 0.0
  }

  lemma {:induction false} SumPositive(values: seq<real>)
    requires AllPositive(values) && |values| > 0
    ensures Sum(values) > 0.0
  {
    if |values| > 1 {
      SumPositive(values[..|values| - 1]);
    }
  }

  lemma MeanPositive(values: seq<real>)
    requires AllPositive(values) && |values| > 0
    ensures Mean(values) > 0.0
  {
    SumPositive(values);
  }

  function Repeated(value: real, n: nat): (r: seq<real>)
    ensures |r| == n && forall i :: 0 <= i < n ==> r[i] == value
  {
    seq(n, i requires 0 <= i < n => value)
  }

  lemma {:induction false} SumOfConstant(values: seq<real>, value: real)
    requires forall i :: 0 <= i < |values| ==> values[i] == value
    ensures Sum(values) == |values| as real * value
  {
    if |values| > 0 {
      var n := |values| - 1;
      SumOfConstant(values[..n], value);
      assert (n + 1) as real * value == n as real * value + value;
    }
  }

  lemma {:induction false} SumJoins(first: seq<real>, second: seq<real>)
    ensures Sum(first + second) == Sum(first) + Sum(second)
  {
    if |second| == 0 {
      assert first + second == first;
    } else {
      SumJoins(first, second[..|second| - 1]);
      assert (first + second)[..|first + second| - 1] == first + second[..|second| - 1];
    }
  }

  lemma SumOfOne(value: real)
    ensures Sum([value]) == value
  {
    assert [value][..0] == [];
  }

  lemma SumFromMean(values: seq<real>)
    requires |values| > 0
    ensures |values| as real * Mean(values) == Sum(values)
  {
  }

  /** The mean of one constant is that constant. */
  lemma MeanOfConstant(value: real, n: nat)
    requires n > 0
    ensures Mean(Repeated(value, n)) == value
  {
    hide Mean, Sum;
    SumOfConstant(Repeated(value, n), value);
    SumFromMean(Repeated(value, n));
    SameFactor(n as real, Mean(Repeated(value, n)), value);
  }

  lemma SameFactor(n: real, x: real, y: real)
    requires n > 0.0 && n * x == n * y
    ensures x == y
  {
    ScaleOrder(x, y, n);
    ScaleOrder(y, x, n);
  }

  /** Moving a window of n on by one value changes n times its mean by what enters
      minus what leaves. */
  lemma MeanSlides(values: seq<real>, entering: real)
    requires |values| > 0
    ensures |values| as real * Mean(values[1..] + [entering]) == |values| as real * Mean(values) + entering - values[0]
  {
    hide Mean, Sum;
    var rest := values[1..];
    assert values == [values[0]] + rest;
    SumJoins([values[0]], rest);
    SumJoins(rest, [entering]);
    SumOfOne(values[0]);
    SumOfOne(entering);
    SumFromMean(values);
    SumFromMean(rest + [entering]);
  }

  lemma SumWithout(values: seq<real>, k: nat)
    requires k < |values|
    ensures Sum(values) == Sum(Without(values, k)) + values[k]
  {
    hide Sum;
    var before, after := values[..k], values[k + 1..];
    assert values == (before + [values[k]]) + after;
    SumJoins(before, after);
    SumJoins(before + [values[k]], after);
    SumJoins(before, [values[k]]);
    SumOfOne(values[k]);
  }

  lemma {:induction false} SumIgnoresOrder(values: seq<real>, shuffled: seq<real>)
    requires multiset(values) == multiset(shuffled)
    ensures Sum(values) == Sum(shuffled)
  {
    if |values| == 0 {
      assert |multiset(shuffled)| == |multiset(values)| == 0;
    } else {
      var k := FoundAgain(values, shuffled);
      SumIgnoresOrder(values[..|values| - 1], Without(shuffled, k));
      SumWithout(shuffled, k);
    }
  }

  /** The mean does not depend on the order of its values. */
  lemma MeanIgnoresOrder(values: seq<real>, shuffled: seq<real>)
    requires |values| > 0 && multiset(values) == multiset(shuffled)
    ensures |shuffled| == |values| && Mean(values) == Mean(shuffled)
  {
    hide Mean, Sum;
    assert |multiset(values)| == |values| && |multiset(shuffled)| == |shuffled|;
    SumIgnoresOrder(values, shuffled);
    SumFromMean(values);
    SumFromMean(shuffled);
    SameFactor(|values| as real, Mean(values), Mean(shuffled));
  }

  function Strength(config: SmaConfig, fast: real, slow: real): real
    requires config.Valid() && slow > 0.0
  {
    Min(1.0, Abs(fast - slow) / slow / config.strengthScale)
  }

  /** The two averages on the newest bar and on the bar before. */
  datatype Averages = Averages(fastBefore: real, slowBefore: real, fast: real, slow: real)

  function AveragesOf(config: SmaConfig, closes: seq<real>): Averages
    requires config.Valid() && |closes| >= config.slowWindow + 1
  {
    var n := |closes|;
    Averages(Mean(closes[n - config.fastWindow - 1..n - 1]), Mean(closes[n - config.slowWindow - 1..n - 1]),
             Mean(closes[n - config.fastWindow..]), Mean(closes[n - config.slowWindow..]))
  }

  function Decide(config: SmaConfig, means: Averages): Opinion
    requires config.Valid() && means.slow > 0.0
  {
    if means.fastBefore <= means.slowBefore && means.fast > means.slow then
      Opinion(GoLong, Strength(config, means.fast, means.slow))
    else if means.fastBefore >= means.slowBefore && means.fast < means.slow then
      Opinion(GoFlat, Strength(config, means.fast, means.slow))
    else
      Opinion(Hold, 0.0)
  }

  /** The opinion formed on the newest close. */
  function Judge(config: SmaConfig, closes: seq<real>): Opinion
    requires config.Valid() && AllPositive(closes)
  {
    if |closes| < config.slowWindow + 1 then
      Opinion(Hold, 0.0)
    else
      MeanPositive(closes[|closes| - config.slowWindow..]);
      Decide(config, AveragesOf(config, closes))
  }

  function Evaluate(config: SmaConfig, snapshot: MarketSnapshot): Signal
    requires config.Valid() && snapshot.Valid()
  {
    var opinion := Judge(config, snapshot.Closes());
    Signal(snapshot.symbol, opinion.action, opinion.strength, snapshot.AsOf())
  }

  lemma StrengthInUnitInterval(config: SmaConfig, fast: real, slow: real)
    requires config.Valid() && slow > 0.0
    ensures 0.0 <= Strength(config, fast, slow) <= 1.0
    ensures Strength(config, fast, slow) > 0.0 <==> fast != slow
  {
    var spread := Abs(fast - slow);
    assert spread / slow >= 0.0;
    assert spread / slow > 0.0 <==> spread > 0.0 by {
      assert spread == (spread / slow) * slow;
    }
    var ratio := spread / slow;
    assert ratio / config.strengthScale >= 0.0;
    assert ratio == (ratio / config.strengthScale) * config.strengthScale;
  }

  /** Full strength is reached when the averages are `strengthScale` apart, relative
      to the slow one; below that, strength is proportional to their distance. */
  lemma StrengthIsProportional(config: SmaConfig, fast: real, slow: real)
    requires config.Valid() && slow > 0.0
    ensures Strength(config, fast, slow) == 1.0 <==> Abs(fast - slow) >= config.strengthScale * slow
    ensures Strength(config, fast, slow) < 1.0 ==>
              Strength(config, fast, slow) * (config.strengthScale * slow) == Abs(fast - slow)
  {
    var spread, scale := Abs(fast - slow), config.strengthScale;
    TwoQuotients(spread, slow, scale);
    ProductOfNonNegatives(scale, slow);
    ClippedRatio(spread / slow / scale, scale * slow, spread);
  }

  lemma ClippedRatio(ratio: real, full: real, part: real)
    requires full > 0.0 && ratio * full == part
    ensures Min(1.0, ratio) == 1.0 <==> part >= full
    ensures Min(1.0, ratio) < 1.0 ==> Min(1.0, ratio) * full == part
  {
    ScaleOrder(1.0, ratio, full);
  }

  lemma TwoQuotients(x: real, y: real, z: real)
    requires y > 0.0 && z > 0.0
    ensures x / y / z * (z * y) == x
  {
    var ratio := x / y;
    var scaled := ratio / z;
    assert scaled * z == ratio && ratio * y == x;
    assert scaled * (z * y) == (scaled * z) * y;
  }

  /** A signal is always valid, and it carries strength exactly when it acts. */
  lemma OpinionStrength(config: SmaConfig, closes: seq<real>)
    requires config.Valid() && AllPositive(closes)
    ensures 0.0 <= Judge(config, closes).strength <= 1.0
    ensures Judge(config, closes).strength > 0.0 <==> Judge(config, closes).action != Hold
  {
    var n := |closes|;
    if n >= config.slowWindow + 1 {
      MeanPositive(closes[n - config.slowWindow..]);
      StrengthInUnitInterval(config, Mean(closes[n - config.fastWindow..]), Mean(closes[n - config.slowWindow..]));
    }
  }

  /** The strength of a signal is that of the two averages it was decided on. */
  lemma OpinionIsOfNewestAverages(config: SmaConfig, closes: seq<real>)
    requires config.Valid() && AllPositive(closes) && Judge(config, closes).action != Hold
    ensures |closes| > config.slowWindow
    ensures var n, strength := |closes|, Judge(config, closes).strength;
            var fast, slow := Mean(closes[n - config.fastWindow..]), Mean(closes[n - config.slowWindow..]);
            && (strength == 1.0 <==> Abs(fast - slow) >= config.strengthScale * slow)
            && (strength < 1.0 ==> strength * (config.strengthScale * slow) == Abs(fast - slow))
  {
    hide Mean, Strength;
    var n := |closes|;
    MeanPositive(closes[n - config.slowWindow..]);
    StrengthIsProportional(config, Mean(closes[n - config.fastWindow..]), Mean(closes[n - config.slowWindow..]));
  }

  /** Only the last slow + 1 closes matter. */
  lemma OlderClosesAreIgnored(config: SmaConfig, older: seq<real>, recent: seq<real>)
    requires config.Valid() && AllPositive(older) && AllPositive(recent)
    requires |recent| >= config.slowWindow + 1
    ensures AllPositive(older + recent)
    ensures Judge(config, older + recent) == Judge(config, recent)
  {
    var k, n, all := |older|, |recent|, older + recent;
    var f, s := config.fastWindow, config.slowWindow;
    assert all[k + n - f..] == recent[n - f..];
    assert all[k + n - s..] == recent[n - s..];
    assert all[k + n - f - 1..k + n - 1] == recent[n - f - 1..n - 1];
    assert all[k + n - s - 1..k + n - 1] == recent[n - s - 1..n - 1];
  }

  lemma RecentClosesDecide(config: SmaConfig, closes: seq<real>)
    requires config.Valid() && AllPositive(closes)
    ensures Judge(config, closes).action != Hold ==> |closes| >= config.slowWindow + 1
    ensures |closes| >= config.slowWindow + 1 ==>
              var recent := closes[|closes| - config.slowWindow - 1..];
              AllPositive(recent) && Judge(config, closes) == Judge(config, recent)
  {
    if |closes| >= config.slowWindow + 1 {
      hide AveragesOf, Decide;
      var k := |closes| - config.slowWindow - 1;
      assert closes == closes[..k] + closes[k..];
      OlderClosesAreIgnored(config, closes[..k], closes[k..]);
    }
  }

  function Scaled(k: real, values: seq<real>): (r: seq<real>)
    ensures |r| == |values| && forall i :: 0 <= i < |r| ==> r[i] == k * values[i]
  {
    seq(|values|, i requires 0 <= i < |values| => k * values[i])
  }

  lemma ScaledSlice(k: real, values: seq<real>, lo: int, hi: int)
    requires 0 <= lo <= hi <= |values|
    ensures Scaled(k, values)[lo..hi] == Scaled(k, values[lo..hi])
  {
    forall i | 0 <= i < hi - lo
      ensures Scaled(k, values)[lo..hi][i] == Scaled(k, values[lo..hi])[i]
    {
      assert values[lo..hi][i] == values[lo + i];
    }
  }

  lemma {:induction false} SumScales(k: real, values: seq<real>)
    ensures Sum(Scaled(k, values)) == k * Sum(values)
  {
    if |values| > 0 {
      var init := values[..|values| - 1];
      SumScales(k, init);
      ScaledSlice(k, values, 0, |values| - 1);
      assert k * Sum(values) == k * Sum(init) + k * values[|values| - 1];
    }
  }

  lemma MeanScales(k: real, values: seq<real>)
    requires |values| > 0
    ensures Mean(Scaled(k, values)) == k * Mean(values)
  {
    SumScales(k, values);
    var n := |values| as real;
    assert k * Sum(values) / n == k * (Sum(values) / n);
  }

  lemma StrengthScales(config: SmaConfig, k: real, means: Averages, scaled: Averages)
    requires config.Valid() && k > 0.0 && means.slow > 0.0
    requires scaled.fast == k * means.fast && scaled.slow == k * means.slow
    ensures scaled.slow > 0.0
    ensures Strength(config, scaled.fast, scaled.slow) == Strength(config, means.fast, means.slow)
  {
    SpreadScales(k, means.fast, means.slow, scaled.fast, scaled.slow);
  }

  lemma SpreadScales(k: real, fast: real, slow: real, fast': real, slow': real)
    requires k > 0.0 && slow > 0.0 && fast' == k * fast && slow' == k * slow
    ensures slow' > 0.0
    ensures Abs(fast' - slow') / slow' == Abs(fast - slow) / slow
  {
    var spread, spread' := Abs(fast - slow), Abs(fast' - slow');
    assert fast' - slow' == k * (fast - slow);
    assert spread' == k * spread;
    ProductOfNonNegatives(k, slow);
    SameQuotient(k, spread, slow, spread', slow');
  }

  lemma SameQuotient(k: real, x: real, y: real, x': real, y': real)
    requires y > 0.0 && y' > 0.0 && x' == k * x && y' == k * y
    ensures x' / y' == x / y
  {
    var q := x / y;
    assert q * y == x;
    assert q * y' == x';
  }

  lemma SameOrder(k: real, x: real, y: real, kx: real, ky: real)
    requires k > 0.0 && kx == k * x && ky == k * y
    ensures kx <= ky <==> x <= y
    ensures kx >= ky <==> x >= y
  {
    ScaleOrder(x, y, k);
    ScaleOrder(y, x, k);
  }

  /** `scaled` is `means` in another unit. */
  predicate Rescaled(k: real, means: Averages, scaled: Averages) {
    && scaled.fastBefore == k * means.fastBefore && scaled.slowBefore == k * means.slowBefore
    && scaled.fast == k * means.fast && scaled.slow == k * means.slow
  }

  lemma DecideScales(config: SmaConfig, k: real, means: Averages, scaled: Averages)
    requires config.Valid() && k > 0.0 && means.slow > 0.0 && Rescaled(k, means, scaled)
    ensures scaled.slow > 0.0
    ensures Decide(config, scaled) == Decide(config, means)
  {
    hide Strength;
    StrengthScales(config, k, means, scaled);
    SameOrder(k, means.fast, means.slow, scaled.fast, scaled.slow);
    SameOrder(k, means.fastBefore, means.slowBefore, scaled.fastBefore, scaled.slowBefore);
  }

  lemma AveragesScale(config: SmaConfig, k: real, closes: seq<real>)
    requires config.Valid() && |closes| >= config.slowWindow + 1
    ensures Rescaled(k, AveragesOf(config, closes), AveragesOf(config, Scaled(k, closes)))
  {
    hide Mean, Sum;
    var n := |closes|;
    var all := Scaled(k, closes);
    var means, scaled := AveragesOf(config, closes), AveragesOf(config, all);
    assert scaled.fastBefore == k * means.fastBefore by {
      MeanOfSliceScales(k, closes, n - config.fastWindow - 1, n - 1);
    }
    assert scaled.slowBefore == k * means.slowBefore by {
      MeanOfSliceScales(k, closes, n - config.slowWindow - 1, n - 1);
    }
    assert scaled.fast == k * means.fast by {
      MeanOfSuffixScales(k, closes, n - config.fastWindow);
    }
    assert scaled.slow == k * means.slow by {
      MeanOfSuffixScales(k, closes, n - config.slowWindow);
    }
  }

  /** The unit in which prices are quoted does not matter. */
  lemma PriceUnitIsIrrelevant(config: SmaConfig, k: real, closes: seq<real>)
    requires config.Valid() && AllPositive(closes) && k > 0.0
    ensures AllPositive(Scaled(k, closes))
    ensures Judge(config, Scaled(k, closes)) == Judge(config, closes)
  {
    forall i | 0 <= i < |closes|
      ensures Scaled(k, closes)[i] > 0.0
    {
      ProductOfNonNegatives(k, closes[i]);
    }
    if |closes| >= config.slowWindow + 1 {
      MeanPositive(closes[|closes| - config.slowWindow..]);
      AveragesScale(config, k, closes);
      DecideScales(config, k, AveragesOf(config, closes), AveragesOf(config, Scaled(k, closes)));
    }
  }

  lemma MeanOfSliceScales(k: real, values: seq<real>, lo: int, hi: int)
    requires 0 <= lo < hi <= |values|
    ensures Mean(Scaled(k, values)[lo..hi]) == k * Mean(values[lo..hi])
  {
    ScaledSlice(k, values, lo, hi);
    MeanScales(k, values[lo..hi]);
  }

  lemma MeanOfSuffixScales(k: real, values: seq<real>, lo: int)
    requires 0 <= lo < |values|
    ensures Mean(Scaled(k, values)[lo..]) == k * Mean(values[lo..])
  {
    MeanOfSliceScales(k, values, lo, |values|);
    assert values[lo..|values|] == values[lo..];
    assert Scaled(k, values)[lo..|values|] == Scaled(k, values)[lo..];
  }

  /** Fast average minus slow average on bar `t` of a series. */
  function Spread(config: SmaConfig, series: seq<real>, t: int): real
    requires config.Valid() && config.slowWindow - 1 <= t < |series|
  {
    Mean(series[t + 1 - config.fastWindow..t + 1]) - Mean(series[t + 1 - config.slowWindow..t + 1])
  }

  /** From one bar to the next the spread moves by what enters the two windows minus
      what leaves them, each divided by its window. */
  lemma SpreadSlides(config: SmaConfig, series: seq<real>, t: int)
    requires config.Valid() && config.slowWindow - 1 <= t < |series| - 1
    ensures var f, s, entering := config.fastWindow, config.slowWindow, series[t + 1];
            Spread(config, series, t + 1) - Spread(config, series, t) ==
            (entering - series[t + 1 - f]) / f as real - (entering - series[t + 1 - s]) / s as real
  {
    hide Mean;
    WindowSlides(series, t, config.fastWindow);
    WindowSlides(series, t, config.slowWindow);
  }

  lemma WindowSlides(series: seq<real>, t: int, n: int)
    requires 0 < n <= t + 1 < |series|
    ensures Mean(series[t + 2 - n..t + 2]) - Mean(series[t + 1 - n..t + 1]) == (series[t + 1] - series[t + 1 - n]) / n as real
  {
    hide Mean;
    var window, next := series[t + 1 - n..t + 1], series[t + 2 - n..t + 2];
    assert next == window[1..] + [series[t + 1]];
    MeanSlides(window, series[t + 1]);
    QuotientOfDifference(n as real, Mean(next), Mean(window), series[t + 1] - series[t + 1 - n]);
  }

  lemma QuotientOfDifference(n: real, x: real, y: real, d: real)
    requires n > 0.0 && n * x == n * y + d
    ensures x - y == d / n
  {
    assert n * (x - y) == d;
  }

  /** What the strategy says when bar `t` is the newest one. */
  function SignalAt(config: SmaConfig, series: seq<real>, t: int): Action
    requires config.Valid() && AllPositive(series) && 0 <= t < |series|
  {
    Judge(config, series[..t + 1]).action
  }

  /** A signal is exactly a change of side between two consecutive bars. */
  lemma SignalIsTransition(config: SmaConfig, series: seq<real>, t: int)
    requires config.Valid() && AllPositive(series) && config.slowWindow <= t < |series|
    ensures SignalAt(config, series, t) == GoLong <==>
              Spread(config, series, t - 1) <= 0.0 && Spread(config, series, t) > 0.0
    ensures SignalAt(config, series, t) == GoFlat <==>
              Spread(config, series, t - 1) >= 0.0 && Spread(config, series, t) < 0.0
  {
    var closes, f, s := series[..t + 1], config.fastWindow, config.slowWindow;
    assert closes[t + 1 - f..] == series[t + 1 - f..t + 1];
    assert closes[t + 1 - s..] == series[t + 1 - s..t + 1];
    assert closes[t - f..t] == series[t - f..t];
    assert closes[t - s..t] == series[t - s..t];
  }

  /** No missed exit: between a bar with fast above slow and a later one with fast
      below, a sell fires, even if the averages were equal for a while. */
  lemma {:induction false} ExitIsNeverMissed(config: SmaConfig, series: seq<real>, i: int, j: int) returns (t: int)
    requires config.Valid() && AllPositive(series)
    requires config.slowWindow - 1 <= i < j < |series|
    requires Spread(config, series, i) >= 0.0 && Spread(config, series, j) < 0.0
    ensures i < t <= j && SignalAt(config, series, t) == GoFlat
    decreases j - i
  {
    if Spread(config, series, j - 1) >= 0.0 {
      SignalIsTransition(config, series, j);
      t := j;
    } else {
      t := ExitIsNeverMissed(config, series, i, j - 1);
    }
  }

  /** No missed entry, symmetrically. */
  lemma {:induction false} EntryIsNeverMissed(config: SmaConfig, series: seq<real>, i: int, j: int) returns (t: int)
    requires config.Valid() && AllPositive(series)
    requires config.slowWindow - 1 <= i < j < |series|
    requires Spread(config, series, i) <= 0.0 && Spread(config, series, j) > 0.0
    ensures i < t <= j && SignalAt(config, series, t) == GoLong
    decreases j - i
  {
    if Spread(config, series, j - 1) <= 0.0 {
      SignalIsTransition(config, series, j);
      t := j;
    } else {
      t := EntryIsNeverMissed(config, series, i, j - 1);
    }
  }

  /** Two entries always have a bar between them on which fast was not above slow;
      if it was below there, an exit fired between the two entries. */
  lemma EntriesAreSeparated(config: SmaConfig, series: seq<real>, i: int, j: int)
    requires config.Valid() && AllPositive(series)
    requires config.slowWindow <= i < j < |series|
    requires SignalAt(config, series, i) == GoLong && SignalAt(config, series, j) == GoLong
    ensures i < j - 1 && Spread(config, series, j - 1) <= 0.0
    ensures (exists k :: i < k < j && Spread(config, series, k) == 0.0)
         || (exists t :: i < t < j && SignalAt(config, series, t) == GoFlat)
  {
    SignalIsTransition(config, series, i);
    SignalIsTransition(config, series, j);
    if Spread(config, series, j - 1) < 0.0 {
      var t := ExitIsNeverMissed(config, series, i, j - 1);
      assert i < t < j && SignalAt(config, series, t) == GoFlat;
    }
  }

  lemma ExitsAreSeparated(config: SmaConfig, series: seq<real>, i: int, j: int)
    requires config.Valid() && AllPositive(series)
    requires config.slowWindow <= i < j < |series|
    requires SignalAt(config, series, i) == GoFlat && SignalAt(config, series, j) == GoFlat
    ensures i < j - 1 && Spread(config, series, j - 1) >= 0.0
    ensures (exists k :: i < k < j && Spread(config, series, k) == 0.0)
         || (exists t :: i < t < j && SignalAt(config, series, t) == GoLong)
  {
    SignalIsTransition(config, series, i);
    SignalIsTransition(config, series, j);
    if Spread(config, series, j - 1) > 0.0 {
      var t := EntryIsNeverMissed(config, series, i, j - 1);
      assert i < t < j && SignalAt(config, series, t) == GoLong;
    }
  }
}
