/** Bar durations and bar alignment. Moments and durations are whole
    microseconds, moments counted from the Unix epoch in UTC. */
module Timeframes {
  import opened Results
  import opened Text

  const SECOND := 1_000_000
  const MINUTE := 60 * SECOND
  const HOUR := 60 * MINUTE
  const DAY := 24 * HOUR
  const WEEK := 7 * DAY

  datatype TimeframeError = Unsupported | AmountNotPositive

  function UnitLength(unit: char): Option<int> {
    match unit
    case 'm' => Some(MINUTE)
    case 'h' => Some(HOUR)
    case 'd' => Some(DAY)
    case 'w' => Some(WEEK)
    case _ => None
  }

  /** The pattern ends in `$`, which also matches just before one final newline. */
  function WithoutFinalNewline(s: string): string {
    if |s| > 0 && s[|s| - 1] == '\n' then s[..|s| - 1] else s
  }

  function ParseTimeframe(timeframe: string): Result<int, TimeframeError> {
    var body := WithoutFinalNewline(timeframe);
    if |body| < 2 || !AllDigits(body[..|body| - 1]) || UnitLength(body[|body| - 1]).None? then
      Failure(Unsupported)
    else
      var amount := ReadDigits(body[..|body| - 1]);
      if amount < 1 then Failure(AmountNotPositive)
      else Success(amount * UnitLength(body[|body| - 1]).value)
  }

  function FloorToStep(moment: int, step: int): int
    requires step > 0
  {
    step * (moment / step)
  }

  predicate IsStale(asOf: int, step: int, now: int, maxAgeFactor: int) {
    now - asOf > step * maxAgeFactor
  }

  /** An amount with a unit, as a timeframe is written: leading zeros are allowed. */
  function Written(zeros: nat, amount: nat, unit: char): string {
    Zeros(zeros) + Digits(amount) + [unit]
  }

  /** The four units, in microseconds. */
  predicate Lasts(unit: char, duration: int) {
    || (unit == 'm' && duration == 60_000_000)
    || (unit == 'h' && duration == 3_600_000_000)
    || (unit == 'd' && duration == 86_400_000_000)
    || (unit == 'w' && duration == 604_800_000_000)
  }

  lemma UnitsLast(unit: char, duration: int)
    ensures UnitLength(unit) == Some(duration) <==> Lasts(unit, duration)
  {
  }

  /** Every written duration is read back, also with a final newline. */
  lemma TimeframeReadBack(zeros: nat, amount: nat, unit: char, duration: int)
    requires amount >= 1 && Lasts(unit, duration)
    ensures ParseTimeframe(Written(zeros, amount, unit)) == Success(amount * duration)
    ensures ParseTimeframe(Written(zeros, amount, unit) + ['\n']) == ParseTimeframe(Written(zeros, amount, unit))
  {
    var digits, body := Zeros(zeros) + Digits(amount), Written(zeros, amount, unit);
    LeadingZeros(zeros, Digits(amount));
    DigitsReadBack(amount);
    assert body[..|body| - 1] == digits;
    assert unit != '\n';
    assert WithoutFinalNewline(body) == body;
    assert WithoutFinalNewline(body + ['\n']) == body;
  }

  /** Nothing else is read. */
  lemma OnlyWrittenIsRead(timeframe: string) returns (zeros: nat, amount: nat, unit: char, duration: int)
    requires ParseTimeframe(timeframe).Success?
    ensures amount >= 1 && Lasts(unit, duration)
    ensures timeframe == Written(zeros, amount, unit) || timeframe == Written(zeros, amount, unit) + ['\n']
    ensures ParseTimeframe(timeframe).value == amount * duration
  {
    var body := WithoutFinalNewline(timeframe);
    var digits := body[..|body| - 1];
    amount, unit := ReadDigits(digits), body[|body| - 1];
    duration := UnitLength(unit).value;
    zeros := ZerosBefore(digits);
    assert body == digits + [unit];
  }

  /** Whatever is read lasts at least a minute and is spelled without a dash. */
  lemma ParsedTimeframe(timeframe: string)
    requires ParseTimeframe(timeframe).Success?
    ensures ParseTimeframe(timeframe).value >= 60_000_000
    ensures '-' !in timeframe
  {
    var body := WithoutFinalNewline(timeframe);
    var amount := ReadDigits(body[..|body| - 1]);
    var unit := UnitLength(body[|body| - 1]).value;
    assert amount * unit >= unit;
    forall i | 0 <= i < |timeframe|
      ensures timeframe[i] != '-'
    {
      if i < |body| - 1 {
        assert timeframe[i] == body[..|body| - 1][i];
      }
    }
  }

  lemma QuotientMonotone(s: int, t: int, step: int)
    requires step > 0 && s <= t
    ensures s / step <= t / step
  {
    var d := t / step - s / step;
    assert step * d == (t - t % step) - (s - s % step) by {
      assert step * d == step * (t / step) - step * (s / step);
    }
    assert step * d > -step;
    assert d >= 0 by {
      if d <= -1 {
        NegativeMultiple(d, step);
        assert false;
      }
    }
  }

  lemma NegativeMultiple(d: int, step: int)
    requires step > 0 && d <= -1
    ensures step * d <= -step
  {
  }

  /** The bar start is the greatest aligned moment that is not after `moment`. */
  lemma FloorIsBarStart(moment: int, step: int)
    requires step > 0
    ensures FloorToStep(moment, step) % step == 0
    ensures FloorToStep(moment, step) <= moment < FloorToStep(moment, step) + step
    ensures forall t :: t % step == 0 && t <= moment ==> t <= FloorToStep(moment, step)
  {
    MultiplesAreAligned(moment / step, step);
    forall t | t % step == 0 && t <= moment
      ensures t <= FloorToStep(moment, step)
    {
      QuotientMonotone(t, moment, step);
      assert step * (t / step) <= step * (moment / step);
    }
  }

  /** Aligned means a whole number of steps from the epoch. */
  lemma MultiplesAreAligned(k: int, step: int)
    requires step > 0
    ensures (step * k) % step == 0
    ensures FloorToStep(step * k, step) == step * k
  {
    ShiftedFloor(0, k, step);
  }

  /** Bars are evenly spaced: shifting by whole steps shifts the bar start. */
  lemma ShiftedFloor(moment: int, k: int, step: int)
    requires step > 0
    ensures FloorToStep(moment + step * k, step) == FloorToStep(moment, step) + step * k
  {
    var t := moment + step * k;
    var d := t / step - (moment / step + k);
    assert step * d == moment % step - t % step by {
      assert step * d == step * (t / step) - step * (moment / step) - step * k;
    }
    assert -step < step * d < step;
    assert d == 0 by {
      if d <= -1 {
        NegativeMultiple(d, step);
        assert false;
      } else if d >= 1 {
        NegativeMultiple(-d, step);
        assert false;
      }
    }
    assert t / step == moment / step + k;
    assert step * (moment / step + k) == step * (moment / step) + step * k;
  }
}
