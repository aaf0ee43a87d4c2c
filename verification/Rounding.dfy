/** The three conversions between a price and a count of min ticks, with one min tick as
    the unit of price, and the rounding of a count onto a product's own grid.
    Double arithmetic is modelled by exact reals. */
module Rounding {

  const EPSILON := 0.00000001

  /** `std::round`: the nearest integer, halves away from zero. */
  function Round(x: real): (r: int)
    ensures -0.5 <= x - r as real <= 0.5
    ensures x - r as real == 0.5 ==> x < 0.0
    ensures x - r as real == -0.5 ==> x > 0.0
  {
    if x >= 0.0 then (x + 0.5).Floor else -((0.5 - x).Floor)
  }

  /** `n` is the integer nearest to `x`, a half going away from zero. */
  predicate IsNearest(x: real, n: int) {
    -0.5 <= x - n as real <= 0.5 && (x - n as real == 0.5 ==> x < 0.0) && (x - n as real == -0.5 ==> x > 0.0)
  }

  /** There is one nearest integer. */
  lemma NearestIsRound(x: real, n: int)
    ensures IsNearest(x, n) <==> n == Round(x)
  {
  }

  lemma RoundMonotone(x: real, y: real)
    requires x <= y
    ensures Round(x) <= Round(y)
  {
  }

  lemma RoundOfWhole(x: real, n: int)
    requires x == n as real
    ensures Round(x) == n
  {
  }

  /** Shifting by a whole number commutes with rounding while both stay non-negative. */
  lemma RoundShift(x: real, n: int)
    requires x >= 0.0 && x + n as real >= 0.0
    ensures Round(x + n as real) == Round(x) + n
  {
  }

  /** floor_price_in_min_ticks for an exchange without a tick function. */
  function FloorTicks(x: real): (r: int)
    ensures r as real <= x + EPSILON < r as real + 1.0
  {
    (x + EPSILON).Floor
  }

  /** ceil_price_in_min_ticks for an exchange without a tick function. */
  function CeilTicks(x: real): (r: int)
    ensures r as real - 1.0 < x - EPSILON <= r as real
  {
    -((EPSILON - x).Floor)
  }

  lemma FloorAtMost(x: real, n: int)
    requires x <= n as real
    ensures FloorTicks(x) <= n
  {
  }

  lemma CeilAtLeast(x: real, n: int)
    requires x >= n as real
    ensures CeilTicks(x) >= n
  {
  }

  /** `std::round(value / grid) * grid`. */
  function Snap(value: int, grid: int): (s: int)
    requires grid >= 1
  {
    Round(value as real / grid as real) * grid
  }

  lemma SnapMonotone(a: int, b: int, grid: int)
    requires grid >= 1 && a <= b
    ensures Snap(a, grid) <= Snap(b, grid)
  {
    var g := grid as real;
    assert a as real / g <= b as real / g;
    RoundMonotone(a as real / g, b as real / g);
    MulMonotone(Round(a as real / g), Round(b as real / g), grid);
  }

  lemma SnapOnGrid(k: int, grid: int)
    requires grid >= 1
    ensures Snap(k * grid, grid) == k * grid
  {
    assert (k * grid) as real / grid as real == k as real;
    RoundOfWhole((k * grid) as real / grid as real, k);
  }

  /** Snapping lands on the grid, at most half a grid step away. */
  lemma SnapIsNearest(value: int, grid: int)
    requires grid >= 1
    ensures Snap(value, grid) % grid == 0
    ensures -grid <= 2 * (value - Snap(value, grid)) <= grid
  {
    var q := value as real / grid as real;
    HalfStep(q, Round(q), value, grid);
    MultipleHasNoRemainder(Round(q), grid);
  }

  lemma HalfStep(q: real, r: int, value: int, grid: int)
    requires grid >= 1 && q * grid as real == value as real
    requires -0.5 <= q - r as real <= 0.5
    ensures -grid <= 2 * (value - r * grid) <= grid
  {
    var e := ScaleBound(q - r as real, grid as real);
    RealOfProduct(r, grid);
    assert e == (value - r * grid) as real;
    WholeBound(value - r * grid, grid, e);
  }

  lemma WholeBound(d: int, grid: int, e: real)
    requires e == d as real && -(grid as real) <= 2.0 * e <= grid as real
    ensures -grid <= 2 * d <= grid
  {
  }

  /** Moving a whole number of grid steps commutes with snapping between non-negative values. */
  lemma SnapShift(value: int, steps: int, grid: int)
    requires grid >= 1 && value >= 0 && value + steps * grid >= 0
    ensures Snap(value + steps * grid, grid) == Snap(value, grid) + steps * grid
  {
    var g := grid as real;
    assert (value + steps * grid) as real == value as real + (steps as real) * g;
    assert (value + steps * grid) as real / g == value as real / g + steps as real;
    assert value as real / g >= 0.0;
    assert (value + steps * grid) as real / g >= 0.0;
    RoundShift(value as real / g, steps);
    var r := Round(value as real / g);
    assert (r + steps) * grid == r * grid + steps * grid;
  }

  lemma RealOfProduct(a: int, b: int)
    ensures (a * b) as real == a as real * b as real
  {
  }

  lemma MulMonotone(a: int, b: int, k: int)
    requires a <= b && k >= 0
    ensures a * k <= b * k
  {
  }

  lemma ScaleBound(e: real, g: real) returns (p: real)
    requires -0.5 <= e <= 0.5 && g > 0.0
    ensures p == e * g && -g <= 2.0 * p <= g
  {
    p := e * g;
    ProductSign(e + 0.5, g);
    ProductSign(0.5 - e, g);
  }

  lemma ProductSign(a: real, b: real)
    requires a >= 0.0 && b >= 0.0
    ensures a * b >= 0.0
  {
  }

  lemma MultipleHasNoRemainder(k: int, m: int)
    requires m >= 1
    ensures (k * m) % m == 0
  {
    var q, r := (k * m) / m, (k * m) % m;
    assert (k - q) * m == r;
    if k - q >= 1 {
      MulMonotone(1, k - q, m);
      assert false;
    } else if k - q <= -1 {
      MulMonotone(k - q, -1, m);
      assert false;
    }
  }
}
