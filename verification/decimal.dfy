/** Exact decimal rounding as done by the big.js library. The range
    model needs three of its uses: `Big.div` rounds its quotient to 20
    decimal places under rounding mode 1 (to nearest, ties away from
    zero), `round(0, 3)` rounds to a whole number under rounding mode 3
    (away from zero), and `toFixed(3)` rounds to three places under
    rounding mode 1. The pattern generator's `roundDecimal(x, dp)` rounds
    to 0, 3 or 4 places under rounding mode 3. Each scale is a literal,
    so every fact here stays within linear arithmetic. */
module Decimal {

  /** The smallest integer not below `x`. */
  function Ceil(x: real): (c: int)
    ensures x <= c as real < x + 1.0
  {
    if x.Floor as real == x then x.Floor else x.Floor + 1
  }

  /** Rounding mode 3 to a whole number: the integer next to `y` on the
      side away from zero; `new Big(y).round(0, 3)`. */
  function AwayUnits(y: real): (u: int)
    ensures y >= 0.0 ==> y <= u as real < y + 1.0
    ensures y <= 0.0 ==> y - 1.0 < u as real <= y
  {
    if y >= 0.0 then Ceil(y) else -Ceil(-y)
  }

  /** Rounding mode 1 to a whole number: the integer nearest to `y`, ties
      away from zero. */
  function HalfUpUnits(y: real): (u: int)
    ensures y - 0.5 <= u as real <= y + 0.5
    ensures y >= 0.0 ==> y - 0.5 < u as real <= y + 0.5
    ensures y <= 0.0 ==> y - 0.5 <= u as real < y + 0.5
    ensures y >= 0.0 ==> u >= 0
    ensures y <= 0.0 ==> u <= 0
  {
    if y >= 0.0 then (y + 0.5).Floor else -((-y + 0.5).Floor)
  }

  /** A whole number is its own rounding. */
  lemma HalfUpOfWhole(k: int)
    ensures HalfUpUnits(k as real) == k
  {
  }

  /** Whole-number rounding never lets two points one apart meet. */
  lemma HalfUpUnitsSeparates(x: real, y: real)
    requires x + 1.0 <= y
    ensures HalfUpUnits(x) < HalfUpUnits(y)
  {
  }

  /** Whole-number half-up rounding is monotone. */
  lemma HalfUpUnitsMonotone(x: real, y: real)
    requires x <= y
    ensures HalfUpUnits(x) <= HalfUpUnits(y)
  {
  }

  /** `x` has at most three decimal places. */
  predicate OnThousandths(x: real) {
    (x * 1000.0).Floor as real == x * 1000.0
  }

  /** `parseFloat(new Big(x).toFixed(3))`: `x` to the nearest thousandth,
      ties away from zero. */
  function Fixed3(x: real): (r: real)
    ensures OnThousandths(r)
    ensures x - 0.0005 <= r <= x + 0.0005
    ensures x >= 0.0 ==> x - 0.0005 < r <= x + 0.0005
    ensures x <= 0.0 ==> x - 0.0005 <= r < x + 0.0005
    ensures x >= 0.0 ==> r >= 0.0
    ensures x <= 0.0 ==> r <= 0.0
  {
    var y := x * 1000.0;
    var u := HalfUpUnits(y);
    var r := u as real / 1000.0;
    assert r * 1000.0 == u as real;
    assert (u as real).Floor == u;
    assert y - 0.5 <= u as real <= y + 0.5;
    assert x >= 0.0 ==> y - 0.5 < u as real;
    assert x <= 0.0 ==> u as real < y + 0.5;
    r
  }

  /** A value halfway between two thousandths goes to the one farther
      from zero, on either side of zero. */
  lemma Fixed3TiesAwayFromZero(k: int)
    ensures Fixed3(k as real / 1000.0 + 0.0005) == if k >= 0 then (k + 1) as real / 1000.0 else k as real / 1000.0
    ensures Fixed3(k as real / 1000.0 - 0.0005) == if k <= 0 then (k - 1) as real / 1000.0 else k as real / 1000.0
  {
    var up, down := k as real / 1000.0 + 0.0005, k as real / 1000.0 - 0.0005;
    assert up * 1000.0 == k as real + 0.5;
    assert down * 1000.0 == k as real - 0.5;
    HalfUpTies(k);
  }

  /** Whole-number half-up rounding of a value ending in one half. */
  lemma HalfUpTies(k: int)
    ensures HalfUpUnits(k as real + 0.5) == if k >= 0 then k + 1 else k
    ensures HalfUpUnits(k as real - 0.5) == if k <= 0 then k - 1 else k
  {
  }

  /** Three-place rounding keeps values a thousandth apart in order, a
      thousandth apart. */
  lemma Fixed3Separates(x: real, y: real)
    requires x + 0.001 <= y
    ensures Fixed3(x) + 0.001 <= Fixed3(y)
  {
    HalfUpUnitsSeparates(x * 1000.0, y * 1000.0);
  }

  /** Three-place rounding is monotone. */
  lemma Fixed3Monotone(x: real, y: real)
    requires x <= y
    ensures Fixed3(x) <= Fixed3(y)
  {
    HalfUpUnitsMonotone(x * 1000.0, y * 1000.0);
  }

  /** Three-place rounding leaves values with three places alone. */
  lemma Fixed3OnGrid(x: real)
    requires OnThousandths(x)
    ensures Fixed3(x) == x
  {
    HalfUpOfWhole((x * 1000.0).Floor);
  }

  /** `x` has at most twenty decimal places. */
  predicate OnDivGrid(x: real) {
    (x * 100000000000000000000.0).Floor as real == x * 100000000000000000000.0
  }

  /** The quotient `Big.div` returns for the exact quotient `q`: `q` to
      the nearest multiple of 10^-20, ties away from zero. */
  function DivRound(q: real): (r: real)
    ensures OnDivGrid(r)
    ensures q - 0.000000000000000000005 <= r <= q + 0.000000000000000000005
    ensures q >= 0.0 ==> q - 0.000000000000000000005 < r <= q + 0.000000000000000000005
    ensures q <= 0.0 ==> q - 0.000000000000000000005 <= r < q + 0.000000000000000000005
  {
    var y := q * 100000000000000000000.0;
    var u := HalfUpUnits(y);
    var r := u as real / 100000000000000000000.0;
    assert r * 100000000000000000000.0 == u as real;
    assert (u as real).Floor == u;
    assert y - 0.5 <= u as real <= y + 0.5;
    assert q >= 0.0 ==> y - 0.5 < u as real;
    assert q <= 0.0 ==> u as real < y + 0.5;
    r
  }

  /** `Big.div` is exact when the quotient has at most twenty places. */
  lemma DivRoundOnGrid(q: real)
    requires OnDivGrid(q)
    ensures DivRound(q) == q
  {
    HalfUpOfWhole((q * 100000000000000000000.0).Floor);
  }

  /** Twenty-place rounding is monotone. */
  lemma DivRoundMonotone(x: real, y: real)
    requires x <= y
    ensures DivRound(x) <= DivRound(y)
  {
    HalfUpUnitsMonotone(x * 100000000000000000000.0, y * 100000000000000000000.0);
  }

  // ---------------------------------------------------------------------
  // `roundDecimal` of the pattern generator: `Big.round(dp, 3)`, rounding
  // away from zero

  /** `x` has at most four decimal places. */
  predicate OnTenThousandths(x: real) {
    (x * 10000.0).Floor as real == x * 10000.0
  }

  /** Rounding mode 3 leaves whole numbers alone. */
  lemma AwayUnitsOfWhole(k: int)
    ensures AwayUnits(k as real) == k
  {
  }

  /** `roundDecimal(x, 0)`: the whole number next to `x`, away from zero. */
  function RoundAway0(x: real): (r: real)
    ensures r.Floor as real == r
    ensures x >= 0.0 ==> x <= r < x + 1.0
    ensures x <= 0.0 ==> x - 1.0 < r <= x
  {
    AwayUnits(x) as real
  }

  /** Rounding a non-negative value to a whole number keeps the order. */
  lemma RoundAway0Monotone(x: real, y: real)
    requires 0.0 <= x <= y
    ensures RoundAway0(x) <= RoundAway0(y)
  {
    var cx, cy := Ceil(x), Ceil(y);
    assert x <= cx as real < x + 1.0 && y <= cy as real;
    assert cy as real >= x;
    assert cx <= cy;
  }

  /** `roundDecimal(x, 3)`: the thousandth next to `x`, away from zero. */
  function RoundAway3(x: real): (r: real)
    ensures OnThousandths(r)
    ensures x >= 0.0 ==> x <= r < x + 0.001
    ensures x <= 0.0 ==> x - 0.001 < r <= x
  {
    var u := AwayUnits(x * 1000.0);
    var r := u as real / 1000.0;
    assert r * 1000.0 == u as real;
    assert (r * 1000.0).Floor == u;
    r
  }

  /** `roundDecimal(x, 4)`: the ten-thousandth next to `x`, away from zero. */
  function RoundAway4(x: real): (r: real)
    ensures OnTenThousandths(r)
    ensures x >= 0.0 ==> x <= r < x + 0.0001
    ensures x <= 0.0 ==> x - 0.0001 < r <= x
  {
    var u := AwayUnits(x * 10000.0);
    var r := u as real / 10000.0;
    assert r * 10000.0 == u as real;
    assert (r * 10000.0).Floor == u;
    r
  }

  /** Values already on the grid are kept, so rounding twice is rounding
      once. */
  lemma RoundAway3OnGrid(x: real)
    requires OnThousandths(x)
    ensures RoundAway3(x) == x
  {
    AwayUnitsOfWhole((x * 1000.0).Floor);
  }

  lemma RoundAway4OnGrid(x: real)
    requires OnTenThousandths(x)
    ensures RoundAway4(x) == x
  {
    AwayUnitsOfWhole((x * 10000.0).Floor);
  }

  /** Rounding away from zero is symmetric about zero. */
  lemma RoundAway4Symmetric(x: real)
    ensures RoundAway4(-x) == -RoundAway4(x)
  {
    assert (-x) * 10000.0 == -(x * 10000.0);
  }

  /** For a non-negative value the result is the least ten-thousandth not
      below it: no grid value in between is skipped. */
  lemma RoundAway4Least(x: real, g: real)
    requires x >= 0.0 && OnTenThousandths(g) && x <= g
    ensures RoundAway4(x) <= g
  {
    var k := (g * 10000.0).Floor;
    assert x * 10000.0 <= k as real;
  }
}
