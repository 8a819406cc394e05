/** Exact decimal arithmetic with the three roundings the bot performs.

    A grid is named by its number of units per one: prices are quantized to
    CENT, order sizes to LOT, and the NUMERIC(38, 18) columns hold COLUMN. */
module Decimals {

  const CENT := 100.0
  const LOT := 100_000_000.0
  const COLUMN := 1_000_000_000_000_000_000.0

  /** Number of units of `x`, dropping the fraction (ROUND_DOWN is toward zero). */
  function Truncated(x: real): int {
    if x >= 0.0 then x.Floor else -((-x).Floor)
  }

  /** Nearest number of units of `x`, ties away from zero (ROUND_HALF_UP). */
  function Nearest(x: real): int {
    if x >= 0.0 then (x + 0.5).Floor else -((-x + 0.5).Floor)
  }

  function RoundDown(x: real, scale: real): real
    requires scale > 0.0
  {
    Truncated(x * scale) as real / scale
  }

  function RoundHalfUp(x: real, scale: real): real
    requires scale > 0.0
  {
    Nearest(x * scale) as real / scale
  }

  /** What a NUMERIC(38, 18) column gives back for a value written to it. */
  function Stored(x: real): real {
    RoundHalfUp(x, COLUMN)
  }

  predicate OnGrid(x: real, scale: real) {
    (x * scale).Floor as real == x * scale
  }

  function Min(x: real, y: real): real {
    if x <= y then x else y
  }

  function Max(x: real, y: real): real {
    if x >= y then x else y
  }

  function Abs(x: real): real {
    if x >= 0.0 then x else -x
  }

  lemma ProductOfNonNegatives(x: real, y: real)
    requires x >= 0.0 && y >= 0.0
    ensures x * y >= 0.0
    ensures x > 0.0 && y > 0.0 ==> x * y > 0.0
  {
  }

  lemma GridFrom(x: real, scale: real, k: int)
    requires x * scale == k as real
    ensures OnGrid(x, scale)
  {
  }

  lemma UnitsOverScale(k: int, scale: real)
    requires scale > 0.0
    ensures (k as real / scale) * scale == k as real
    ensures OnGrid(k as real / scale, scale)
  {
    GridFrom(k as real / scale, scale, k);
  }

  lemma ScaleOrder(x: real, y: real, scale: real)
    requires scale > 0.0
    ensures x <= y <==> x * scale <= y * scale
  {
    if x <= y {
      assert (y - x) * scale >= 0.0;
    } else {
      assert (x - y) * scale > 0.0;
    }
  }

  lemma FloorMonotone(x: real, y: real)
    requires x <= y
    ensures x.Floor <= y.Floor
  {
    assert (x.Floor - y.Floor) as real == x.Floor as real - y.Floor as real;
  }

  lemma NearestIsClose(u: real)
    ensures -0.5 <= Nearest(u) as real - u <= 0.5
  {
    var n := if u >= 0.0 then (u + 0.5).Floor else (-u + 0.5).Floor;
    assert n as real <= (if u >= 0.0 then u + 0.5 else -u + 0.5) < n as real + 1.0;
    assert (-n) as real == -(n as real);
  }

  lemma NearestKeepsUnits(u: real)
    requires u.Floor as real == u
    ensures Nearest(u) as real == u
  {
    NearestIsClose(u);
    assert (Nearest(u) - u.Floor) as real == Nearest(u) as real - u;
  }

  lemma NearestMonotone(u: real, v: real)
    requires u <= v
    ensures Nearest(u) <= Nearest(v)
  {
    if u >= 0.0 {
      FloorMonotone(u + 0.5, v + 0.5);
    } else if v < 0.0 {
      FloorMonotone(-v + 0.5, -u + 0.5);
    } else {
      FloorMonotone(0.0, v + 0.5);
      FloorMonotone(0.0, -u + 0.5);
    }
  }

  lemma UnitsBelow(y: real, x: real, scale: real)
    requires scale > 0.0 && x >= 0.0 && OnGrid(y, scale) && y <= x
    ensures y * scale <= Truncated(x * scale) as real
  {
    UnitsBelowFloor(y, x, scale);
    ProductOfNonNegatives(x, scale);
  }

  lemma UnitsBelowFloor(y: real, x: real, scale: real)
    requires scale > 0.0 && y <= x
    ensures (y * scale).Floor <= (x * scale).Floor
  {
    hide *;
    var u, v := y * scale, x * scale;
    assert u <= v by {
      ScaleOrder(y, x, scale);
    }
    FloorMonotone(u, v);
  }

  lemma RoundDownDominates(y: real, x: real, scale: real)
    requires scale > 0.0 && x >= 0.0 && OnGrid(y, scale) && y <= x
    ensures y <= RoundDown(x, scale)
  {
    UnitsBelow(y, x, scale);
    UnitsOverScale(Truncated(x * scale), scale);
    assert RoundDown(x, scale) * scale == Truncated(x * scale) as real;
    ScaleOrder(y, RoundDown(x, scale), scale);
  }

  /** Rounding down gives the greatest grid value that does not exceed `x`. */
  lemma RoundDownIsGreatest(x: real, scale: real)
    requires x >= 0.0 && scale > 0.0
    ensures OnGrid(RoundDown(x, scale), scale)
    ensures 0.0 <= RoundDown(x, scale) <= x
    ensures forall y :: OnGrid(y, scale) && y <= x ==> y <= RoundDown(x, scale)
  {
    var r := RoundDown(x, scale);
    ScaleOrder(0.0, x, scale);
    UnitsOverScale(Truncated(x * scale), scale);
    ScaleOrder(r, x, scale);
    ScaleOrder(0.0, r, scale);
    forall y | OnGrid(y, scale) && y <= x
      ensures y <= r
    {
      RoundDownDominates(y, x, scale);
    }
  }

  /** Half-up rounding lands on the grid, at most half a unit away, and is the
      identity on the grid. */
  lemma RoundHalfUpIsNearest(x: real, scale: real)
    requires scale > 0.0
    ensures OnGrid(RoundHalfUp(x, scale), scale)
    ensures -0.5 <= RoundHalfUp(x, scale) * scale - x * scale <= 0.5
    ensures OnGrid(x, scale) ==> RoundHalfUp(x, scale) == x
  {
    var r, u := RoundHalfUp(x, scale), x * scale;
    NearestIsClose(u);
    if OnGrid(x, scale) {
      NearestKeepsUnits(u);
    }
    UnitsOverScale(Nearest(u), scale);
    ScaleOrder(r, x, scale);
    ScaleOrder(x, r, scale);
  }

  /** `y` is on the grid and nearest to `x`; of two equally near, the one away from zero. */
  predicate RoundsTo(x: real, y: real, scale: real) {
    && OnGrid(y, scale)
    && (Abs(y - x) * scale < 0.5 || (Abs(y - x) * scale == 0.5 && Abs(y) > Abs(x)))
  }

  lemma NearestExactlyWhen(u: real, n: int)
    ensures Nearest(u) == n <==>
              Abs(n as real - u) < 0.5 || (Abs(n as real - u) == 0.5 && Abs(n as real) > Abs(u))
  {
    var m := if u >= 0.0 then (u + 0.5).Floor else (-u + 0.5).Floor;
    assert m as real <= (if u >= 0.0 then u + 0.5 else -u + 0.5) < m as real + 1.0;
    assert (-m) as real == -(m as real);
    assert (n - Nearest(u)) as real == n as real - Nearest(u) as real;
  }

  lemma DistanceScales(x: real, y: real, scale: real)
    requires scale > 0.0
    ensures Abs(y - x) * scale == Abs(y * scale - x * scale)
  {
    assert (y - x) * scale == y * scale - x * scale;
    AbsScales(y - x, scale);
  }

  lemma FartherScales(x: real, y: real, scale: real)
    requires scale > 0.0
    ensures Abs(y) > Abs(x) <==> Abs(y * scale) > Abs(x * scale)
  {
    hide Abs;
    AbsScales(x, scale);
    AbsScales(y, scale);
    ScaleOrder(Abs(y), Abs(x), scale);
  }

  lemma AbsScales(x: real, scale: real)
    requires scale > 0.0
    ensures Abs(x * scale) == Abs(x) * scale
  {
    ScaleOrder(0.0, x, scale);
  }

  lemma SameUnits(x: real, y: real, scale: real)
    requires scale > 0.0 && x * scale == y * scale
    ensures x == y
  {
    ScaleOrder(x, y, scale);
    ScaleOrder(y, x, scale);
  }

  /** Rounding half up reaches exactly the nearest grid value, ties away from zero. */
  lemma RoundHalfUpExactlyWhen(x: real, y: real, scale: real)
    requires scale > 0.0
    ensures RoundHalfUp(x, scale) == y <==> RoundsTo(x, y, scale)
  {
    hide Nearest, Abs;
    var n := Nearest(x * scale);
    UnitsOverScale(n, scale);
    DistanceScales(x, y, scale);
    FartherScales(x, y, scale);
    NearestExactlyWhen(x * scale, n);
    NearestExactlyWhen(x * scale, (y * scale).Floor);
    if RoundsTo(x, y, scale) {
      SameUnits(RoundHalfUp(x, scale), y, scale);
    }
  }

  lemma RoundHalfUpMonotone(x: real, y: real, scale: real)
    requires scale > 0.0 && x <= y
    ensures RoundHalfUp(x, scale) <= RoundHalfUp(y, scale)
  {
    hide Nearest;
    UnitsMonotone(x, y, scale);
    DivisionKeepsOrder(Nearest(x * scale) as real, Nearest(y * scale) as real, scale);
  }

  lemma UnitsMonotone(x: real, y: real, scale: real)
    requires scale > 0.0 && x <= y
    ensures Nearest(x * scale) <= Nearest(y * scale)
  {
    hide *;
    ScaleOrder(x, y, scale);
    NearestMonotone(x * scale, y * scale);
  }

  lemma DivisionKeepsOrder(m: real, n: real, scale: real)
    requires scale > 0.0 && m <= n
    ensures m / scale <= n / scale
  {
    var p, q := m / scale, n / scale;
    assert p * scale == m && q * scale == n;
    ScaleOrder(p, q, scale);
  }

  /** A value half a unit or more above zero never rounds away to nothing, and
      one below half a unit always does. */
  lemma RoundHalfUpPositive(x: real, scale: real)
    requires scale > 0.0
    ensures RoundHalfUp(x, scale) > 0.0 <==> x * scale >= 0.5
    ensures x >= 0.0 ==> RoundHalfUp(x, scale) >= 0.0
  {
    var r := RoundHalfUp(x, scale);
    UnitsOverScale(Nearest(x * scale), scale);
    ScaleOrder(r, 0.0, scale);
    ScaleOrder(0.0, r, scale);
    ScaleOrder(0.0, x, scale);
  }

  lemma GridSum(x: real, y: real, scale: real)
    requires OnGrid(x, scale) && OnGrid(y, scale)
    ensures OnGrid(x + y, scale) && OnGrid(x - y, scale)
  {
    var i, j := (x * scale).Floor, (y * scale).Floor;
    assert (x + y) * scale == x * scale + y * scale == (i + j) as real;
    assert (x - y) * scale == x * scale - y * scale == (i - j) as real;
    GridFrom(x + y, scale, i + j);
    GridFrom(x - y, scale, i - j);
  }

  lemma GridProduct(x: real, s: real, y: real, t: real, product: real)
    requires OnGrid(x, s) && OnGrid(y, t) && product == x * y
    ensures OnGrid(product, s * t)
  {
    var i, j := (x * s).Floor, (y * t).Floor;
    assert product * (s * t) == (x * s) * (y * t);
    assert (i as real) * (j as real) == (i * j) as real;
    GridFrom(product, s * t, i * j);
  }

  /** A grid is contained in every grid that divides its unit further. */
  lemma GridRefines(x: real, scale: real, n: int)
    requires OnGrid(x, scale)
    ensures OnGrid(x, scale * n as real)
  {
    var i := (x * scale).Floor;
    assert x * (scale * n as real) == (x * scale) * n as real == (i * n) as real;
    GridFrom(x, scale * n as real, i * n);
  }

  lemma StoredOnce(x: real)
    ensures Stored(Stored(x)) == Stored(x)
    ensures OnGrid(x, COLUMN) <==> Stored(x) == x
    ensures x >= 0.0 ==> Stored(x) >= 0.0
    ensures Abs(Stored(x) - x) * COLUMN <= 0.5
  {
    RoundHalfUpIsNearest(x, COLUMN);
    RoundHalfUpIsNearest(Stored(x), COLUMN);
    RoundHalfUpPositive(x, COLUMN);
  }
}
