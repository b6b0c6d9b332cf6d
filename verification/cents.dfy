/** Rounding a monetary amount up to the cent, as `Math.ceil(x * 100) / 100`
    does on exact values. */
module Cents {

  /** Math.ceil: the least integer that is not below `y`. */
  function Ceil(y: real): (k: int)
    ensures y <= k as real < y + 1.0
  {
    -((-y).Floor)
  }

  /** `x` is a whole number of cents. */
  predicate IsCents(x: real) {
    (x * 100.0).Floor as real == x * 100.0
  }

  /** Rounds `x` up to a whole number of cents. */
  function CeilCents(x: real): (r: real)
    ensures IsCents(r)
    ensures x <= r < x + 0.01
  {
    Ceil(x * 100.0) as real / 100.0
  }

  /** No whole-cent amount at or above `x` lies below `CeilCents(x)`:
      rounding up moves by the least amount it can. */
  lemma CeilCentsIsLeast(x: real, c: real)
    requires IsCents(c) && x <= c
    ensures CeilCents(x) <= c
  {
    var m := (c * 100.0).Floor;
    var k := Ceil(x * 100.0);
    assert x * 100.0 <= m as real;
    assert k as real < x * 100.0 + 1.0;
    assert k <= m;
  }

  /** An amount that is already whole cents is left as it is. */
  lemma CeilCentsFixesCents(x: real)
    requires IsCents(x)
    ensures CeilCents(x) == x
  {
    CeilCentsIsLeast(x, x);
  }

  /** Rounding up preserves order. */
  lemma CeilCentsMonotone(x: real, y: real)
    requires x <= y
    ensures CeilCents(x) <= CeilCents(y)
  {
    CeilCentsIsLeast(x, CeilCents(y));
  }
}
