/** Fixed-point decimals. A Python `Decimal` is an exact rational, modelled as a
    `real`; `quantize(COIN)` and `quantize(PERC)` round to a grid using the
    default context's rounding, half-to-even. */
module Money {

  /** The two granularities: COIN = Decimal('.00000001') for amounts and
      prices, PERC = Decimal('.01') for USD values and percentages. */
  datatype Grid = Coin | Perc

  /** Half of one grid step: the largest error a quantization can introduce. */
  function HalfStep(g: Grid): real
  {
    match g
    case Coin => 0.000000005
    case Perc => 0.005
  }

  /** Grid points per unit: 10^8 for COIN, 10^2 for PERC. */
  function Scale(g: Grid): real
  {
    match g
    case Coin => 100000000.0
    case Perc => 100.0
  }

  /** x is an even number of grid steps. */
  predicate EvenStep(x: real, g: Grid)
  {
    (x * Scale(g)).Floor % 2 == 0
  }

  predicate IsInteger(y: real)
  {
    y.Floor as real == y
  }

  /** x is a whole number of grid steps. */
  predicate OnGrid(x: real, g: Grid)
  {
    match g
    case Coin => IsInteger(x * 100000000.0)
    case Perc => IsInteger(x * 100.0)
  }

  /** The integer nearest to y, ties going to the even neighbour. */
  function RoundHalfEven(y: real): (n: int)
    ensures y - 0.5 <= n as real <= y + 0.5
    ensures (n as real - y == 0.5 || y - n as real == 0.5) ==> n % 2 == 0
    ensures IsInteger(y) ==> n as real == y
  {
    var f := y.Floor;
    var frac := y - f as real;
    if frac < 0.5 then f
    else if frac > 0.5 then f + 1
    else if f % 2 == 0 then f
    else f + 1
  }

  /** Decimal.quantize(COIN) or Decimal.quantize(PERC) under ROUND_HALF_EVEN:
      the nearest grid point, within half a step, and x itself when x is
      already on the grid. */
  function Quantize(x: real, g: Grid): (r: real)
    ensures OnGrid(r, g)
    ensures -HalfStep(g) <= r - x <= HalfStep(g)
    ensures OnGrid(x, g) ==> r == x
  {
    match g
    case Coin =>
      var n := RoundHalfEven(x * 100000000.0);
      assert IsInteger(n as real);
      n as real / 100000000.0
    case Perc =>
      var n := RoundHalfEven(x * 100.0);
      assert IsInteger(n as real);
      n as real / 100.0
  }

  function QuantizeCoin(x: real): real
  {
    Quantize(x, Coin)
  }

  function QuantizePerc(x: real): real
  {
    Quantize(x, Perc)
  }

  /** Half-even rounding never reverses an order (the tie rule cannot break it). */
  lemma RoundMonotone(y: real, z: real)
    requires y <= z
    ensures RoundHalfEven(y) <= RoundHalfEven(z)
  {
    if y < z {
      assert RoundHalfEven(y) as real - RoundHalfEven(z) as real < 1.0;
    }
  }

  lemma QuantizeMonotone(x: real, y: real, g: Grid)
    requires x <= y
    ensures Quantize(x, g) <= Quantize(y, g)
  {
    match g
    case Coin => RoundMonotone(x * 100000000.0, y * 100000000.0);
    case Perc => RoundMonotone(x * 100.0, y * 100.0);
  }

  /** A value exactly halfway between two grid points goes to the one with an
      even number of steps (ROUND_HALF_EVEN). */
  lemma QuantizeTiesToEven(x: real, g: Grid)
    ensures var r := Quantize(x, g);
            (r - x == HalfStep(g) || x - r == HalfStep(g)) ==> EvenStep(r, g)
  {
  }

  /** Everything is quantized after one pass: re-quantizing changes nothing. */
  lemma QuantizeIdempotent(x: real, g: Grid)
    ensures Quantize(Quantize(x, g), g) == Quantize(x, g)
  {
  }

  /** Rounding a value at or below a grid point cannot carry it above that point. */
  lemma QuantizeBelowGridPoint(x: real, p: real, g: Grid)
    requires OnGrid(p, g) && x <= p
    ensures Quantize(x, g) <= p
  {
    QuantizeMonotone(x, p, g);
  }

  /** Rounding a value at or above a grid point cannot drop it below that point. */
  lemma QuantizeAboveGridPoint(x: real, p: real, g: Grid)
    requires OnGrid(p, g) && p <= x
    ensures p <= Quantize(x, g)
  {
    QuantizeMonotone(p, x, g);
  }

  /** Rounding never flips the sign of a value. */
  lemma QuantizeKeepsSign(x: real, g: Grid)
    ensures x >= 0.0 ==> Quantize(x, g) >= 0.0
    ensures x <= 0.0 ==> Quantize(x, g) <= 0.0
  {
    assert OnGrid(0.0, g);
    if x >= 0.0 { QuantizeMonotone(0.0, x, g); }
    if x <= 0.0 { QuantizeMonotone(x, 0.0, g); }
  }
}
