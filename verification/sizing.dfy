/** Integer rounding of a filter's bit budget. The budget itself, -n ln p / (ln 2)^2, is a
    floating-point computation and enters here as an arbitrary positive real. */
module Sizing {

  /** The ceiling of x / unit. */
  function CeilDiv(x: real, unit: nat): (c: int)
    requires unit > 0
    ensures c as real >= x / unit as real
    ensures (c - 1) as real < x / unit as real
  {
    var y := x / unit as real;
    -((-y).Floor)
  }

  /** The bit budget x rounded up to a whole number of units: the least positive
      multiple of `unit` that is at least x. */
  function RoundUp(x: real, unit: nat): (m: nat)
    requires x > 0.0 && unit > 0
    ensures m > 0 && m % unit == 0
    ensures m as real >= x && (m - unit) as real < x
  {
    var c := CeilDiv(x, unit);
    MulScales(c, unit, x);
    MultipleMod(c, unit);
    c * unit
  }

  lemma MultipleMod(c: nat, unit: nat)
    requires unit > 0
    ensures (c * unit) % unit == 0
  {
    var q, r := (c * unit) / unit, (c * unit) % unit;
    assert (c - q) * unit == r;
    SmallMultipleIsZero(c - q, unit, r);
  }

  /** The only multiple of `unit` in [0, unit) is zero. */
  lemma SmallMultipleIsZero(d: int, unit: nat, r: int)
    requires unit > 0 && 0 <= r < unit && d * unit == r
    ensures r == 0
  {
  }

  lemma MulScales(c: int, unit: nat, x: real)
    requires unit > 0 && x > 0.0
    requires c as real >= x / unit as real && (c - 1) as real < x / unit as real
    ensures c >= 1
    ensures (c * unit) as real >= x && (c * unit - unit) as real < x
  {
  }
}
