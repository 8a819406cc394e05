/** Cycle identifiers: the bar a cycle acted on, written out. */
module CycleIds {
  import opened Results
  import opened Text
  import opened Timeframes
  import opened Market
  import opened Orders
  import opened Policy

  predicate IsUpper(c: char) {
    'A' <= c <= 'Z'
  }

  predicate IsLower(c: char) {
    'a' <= c <= 'z'
  }

  function Upper(c: char): char {
    if IsLower(c) then (c as int - 'a' as int + 'A' as int) as char else c
  }

  /** The symbol with everything but ASCII letters and digits removed, in capitals. */
  function Condensed(symbol: string): (r: string)
    ensures forall i :: 0 <= i < |r| ==> IsUpper(r[i]) || IsDigit(r[i])
  {
    if |symbol| == 0 then ""
    else
      var init, c := Condensed(symbol[..|symbol| - 1]), symbol[|symbol| - 1];
      if IsUpper(c) || IsLower(c) || IsDigit(c) then init + [Upper(c)] else init
  }

  /** Whole seconds since the epoch, the fraction dropped toward zero. */
  function EpochSeconds(moment: int): int {
    if moment >= 0 then moment / SECOND else -(-moment / SECOND)
  }

  function CycleId(symbol: string, timeframe: string, asOf: int): string {
    Condensed(symbol) + "-" + timeframe + "-" + Numeral(EpochSeconds(asOf))
  }

  function BuildCycleId(snapshot: MarketSnapshot): string
    requires |snapshot.candles| > 0
  {
    CycleId(snapshot.symbol, snapshot.timeframe, snapshot.AsOf())
  }

  /** In the same whole second, where a fraction is dropped toward the epoch: the second
      on either side of the epoch counts as one. */
  predicate SameSecond(t: int, t': int) {
    || (t >= 0 && t' >= 0 && t / 1_000_000 == t' / 1_000_000)
    || (t <= 0 && t' <= 0 && (-t) / 1_000_000 == (-t') / 1_000_000)
    || (-1_000_000 < t < 1_000_000 && -1_000_000 < t' < 1_000_000)
  }

  lemma SameEpochSeconds(t: int, t': int)
    ensures EpochSeconds(t) == EpochSeconds(t') <==> SameSecond(t, t')
  {
  }

  /** For opening times on whole seconds that is the same opening time; and opening
      times two seconds or more apart never fall into one. */
  lemma WholeSeconds(t: int, t': int)
    ensures t % 1_000_000 == 0 && t' % 1_000_000 == 0 ==> (SameSecond(t, t') <==> t == t')
    ensures t' - t >= 2_000_000 ==> !SameSecond(t, t')
  {
  }

  /** The id of a bar that opened `k` seconds after the epoch, spelled out. */
  lemma CycleIdOfWholeSecond(symbol: string, timeframe: string, k: nat)
    ensures CycleId(symbol, timeframe, 1_000_000 * k) == Condensed(symbol) + "-" + timeframe + "-" + Digits(k)
  {
  }

  /** Two cycles share an id exactly when they share the condensed symbol, the
      timeframe and the second in which their bar opened. */
  lemma CycleIdIdentifiesBar(s: string, f: string, t: int, s': string, f': string, t': int)
    requires ParseTimeframe(f).Success? && ParseTimeframe(f').Success?
    ensures CycleId(s, f, t) == CycleId(s', f', t') <==>
              Condensed(s) == Condensed(s') && f == f' && SameSecond(t, t')
  {
    SameEpochSeconds(t, t');
    if CycleId(s, f, t) == CycleId(s', f', t') {
      hide Condensed, Numeral, ParseTimeframe, EpochSeconds, SameSecond;
      ParsedTimeframe(f);
      ParsedTimeframe(f');
      NoDashInCondensed(s);
      NoDashInCondensed(s');
      ThreePartsSplit(Condensed(s), f, Numeral(EpochSeconds(t)), Condensed(s'), f', Numeral(EpochSeconds(t')));
      NumeralInjective(EpochSeconds(t), EpochSeconds(t'));
    }
  }

  /** So two bars of one series never share an id: they open a whole number of steps
      of a minute or more apart. */
  lemma BarsHaveTheirOwnIds(symbol: string, timeframe: string, t: int, t': int)
    requires ParseTimeframe(timeframe).Success?
    requires t % ParseTimeframe(timeframe).value == 0 && t' % ParseTimeframe(timeframe).value == 0
    ensures CycleId(symbol, timeframe, t) == CycleId(symbol, timeframe, t') <==> t == t'
  {
    hide Condensed, CycleId, SameSecond;
    ParsedTimeframe(timeframe);
    var step := ParseTimeframe(timeframe).value;
    CycleIdIdentifiesBar(symbol, timeframe, t, symbol, timeframe, t');
    if t < t' {
      AlignedApart(t, t', step);
      WholeSeconds(t, t');
    } else if t' < t {
      AlignedApart(t', t, step);
      WholeSeconds(t', t);
      SecondIsSymmetric(t, t');
    }
  }

  lemma AlignedApart(t: int, t': int, step: int)
    requires step > 0 && t % step == 0 && t' % step == 0 && t < t'
    ensures t' - t >= step
  {
    var d := t' / step - t / step;
    assert t' - t == step * d;
    if d <= -1 {
      NegativeMultiple(d, step);
      assert false;
    }
    NegativeMultiple(-1 - d, step);
    assert step * (-1 - d) == -step - step * d;
  }

  lemma SecondIsSymmetric(t: int, t': int)
    ensures SameSecond(t, t') <==> SameSecond(t', t)
  {
  }

  /** ASCII letters and digits. */
  predicate Alphanumeric(c: char) {
    'A' <= c <= 'Z' || 'a' <= c <= 'z' || '0' <= c <= '9'
  }

  /** `kept` are the positions of the ASCII letters and digits, in order. */
  predicate KeptPositions(symbol: string, kept: seq<nat>) {
    && (forall j :: 0 <= j < |kept| ==> kept[j] < |symbol| && Alphanumeric(symbol[kept[j]]))
    && (forall i, j :: 0 <= i < j < |kept| ==> kept[i] < kept[j])
    && (forall i :: 0 <= i < |symbol| && Alphanumeric(symbol[i]) ==> i in kept)
  }

  function Capital(c: char): char {
    if 'a' <= c <= 'z' then (c as int - 32) as char else c
  }

  /** `condensed` spells the characters of `symbol` at `kept` in capitals. */
  predicate Spells(condensed: string, symbol: string, kept: seq<nat>) {
    && |condensed| == |kept|
    && forall j :: 0 <= j < |kept| ==> kept[j] < |symbol| && condensed[j] == Capital(symbol[kept[j]])
  }

  lemma CondensedStep(init: string, c: char)
    ensures Condensed(init + [c]) == Condensed(init) + if Alphanumeric(c) then [Capital(c)] else []
  {
    assert (init + [c])[..|init|] == init;
  }

  /** The condensed symbol holds exactly the letters and digits, in order and in capitals. */
  lemma {:induction false} CondensedKeeps(symbol: string, kept: seq<nat>)
    requires KeptPositions(symbol, kept)
    ensures Spells(Condensed(symbol), symbol, kept)
  {
    if |symbol| > 0 {
      hide Condensed, KeptPositions, Alphanumeric, Capital;
      var n, m := |symbol| - 1, |kept| - 1;
      var init := symbol[..n];
      assert symbol == init + [symbol[n]];
      CondensedStep(init, symbol[n]);
      if Alphanumeric(symbol[n]) {
        LastIsKept(symbol, kept);
        CondensedKeeps(init, kept[..m]);
      } else {
        LastIsDropped(symbol, kept);
        CondensedKeeps(init, kept);
      }
    } else if |kept| > 0 {
      NothingToKeep(kept);
      assert false;
    }
  }

  lemma LastIsDropped(symbol: string, kept: seq<nat>)
    requires |symbol| > 0 && !Alphanumeric(symbol[|symbol| - 1]) && KeptPositions(symbol, kept)
    ensures KeptPositions(symbol[..|symbol| - 1], kept)
  {
  }

  lemma NothingToKeep(kept: seq<nat>)
    requires |kept| > 0
    ensures !KeptPositions("", kept)
  {
    assert !(kept[0] < |""|);
  }

  lemma LastIsKept(symbol: string, kept: seq<nat>)
    requires |symbol| > 0 && Alphanumeric(symbol[|symbol| - 1]) && KeptPositions(symbol, kept)
    ensures |kept| > 0 && kept[|kept| - 1] == |symbol| - 1
    ensures KeptPositions(symbol[..|symbol| - 1], kept[..|kept| - 1])
  {
    var n, m := |symbol| - 1, |kept| - 1;
    var j :| 0 <= j < |kept| && kept[j] == n;
    assert j == m;
    forall i | 0 <= i < n && Alphanumeric(symbol[..n][i])
      ensures i in kept[..m]
    {
      var k :| 0 <= k < |kept| && kept[k] == i;
      assert kept[..m][k] == i;
    }
  }

  lemma ThreePartsSplit(a: string, b: string, c: string, a': string, b': string, c': string)
    requires '-' !in a && '-' !in b && '-' !in a' && '-' !in b'
    requires a + "-" + b + "-" + c == a' + "-" + b' + "-" + c'
    ensures a == a' && b == b' && c == c'
  {
    assert a + "-" + b + "-" + c == a + "-" + (b + "-" + c);
    assert a' + "-" + b' + "-" + c' == a' + "-" + (b' + "-" + c');
    FirstDashSplits(a, b + "-" + c, a', b' + "-" + c');
    FirstDashSplits(b, c, b', c');
  }

  lemma NoDashInCondensed(symbol: string)
    ensures '-' !in Condensed(symbol)
  {
  }

  predicate EndsWith(s: string, suffix: string) {
    |s| >= |suffix| && s[|s| - |suffix|..] == suffix
  }

  /** The client order id tells its side by its end, and the rest is the cycle id. */
  lemma ClientOrderIdEnds(c: string, side: Side)
    ensures var id := ClientOrderId(c, side);
            && c <= id
            && (EndsWith(id, "-buy") <==> side == Buy) && (EndsWith(id, "-sell") <==> side == Sell)
            && |id| == |c| + (if side == Buy then 4 else 5)
  {
    var id := ClientOrderId(c, side);
    assert id[|c|..] == if side == Buy then "-buy" else "-sell";
    assert id[|id| - 1] == if side == Buy then 'y' else 'l';
    assert "-buy"[3] == 'y' && "-sell"[4] == 'l';
  }

  /** The client order id determines both the cycle and the side. */
  lemma ClientOrderIdIdentifiesOrder(c: string, side: Side, c': string, side': Side)
    requires ClientOrderId(c, side) == ClientOrderId(c', side')
    ensures c == c' && side == side'
  {
    var id, id' := ClientOrderId(c, side), ClientOrderId(c', side');
    assert id[|id| - 1] == if side == Buy then 'y' else 'l';
    assert id'[|id'| - 1] == if side' == Buy then 'y' else 'l';
    assert c == id[..|id| - if side == Buy then 4 else 5];
    assert c' == id'[..|id'| - if side' == Buy then 4 else 5];
  }
}
