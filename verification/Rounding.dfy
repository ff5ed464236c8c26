/** The roundings of the money code, on exact reals, and its floor at zero. */
module Rounding {
  function NonNegative(v: int): nat { if v < 0 then 0 else v }

  /** `Math.round`: to the nearest integer, halves up. */
  function Round(x: real): int { (x + 0.5).Floor }

  function Ceil(x: real): int { -(-x).Floor }

  lemma {:induction false} RoundNearest(x: real)
    ensures Round(x) as real - 0.5 <= x < Round(x) as real + 0.5
  {
  }

  /** Rounding keeps the order, so a tighter dollar limit is never a looser micro-dollar limit. */
  lemma {:induction false} RoundMonotone(x: real, y: real)
    requires x <= y
    ensures Round(x) <= Round(y)
  {
    RoundNearest(x);
    RoundNearest(y);
  }

  lemma {:induction false} CeilBounds(x: real)
    ensures Ceil(x) as real - 1.0 < x <= Ceil(x) as real
  {
  }

  /** Integer ceiling division. */
  function CeilDiv(a: nat, b: nat): (r: nat)
    requires b > 0
    ensures a <= b * r < a + b
  {
    var q := (a + b - 1) / b;
    assert b * q + (a + b - 1) % b == a + b - 1;
    q
  }
}
