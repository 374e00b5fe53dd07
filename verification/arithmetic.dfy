/** Integer arithmetic that several modules need. */
module Arithmetic {
  function Min(a: int, b: int): int {
    if a < b then a else b
  }

  function Max(a: int, b: int): int {
    if a < b then b else a
  }

  lemma MulCancel(g: int, a: int, b: int)
    requires g > 0
    ensures g * a < g * b ==> a < b
  {
  }

  lemma DivMonotone(a: nat, b: nat, g: int)
    requires g > 0 && a <= b
    ensures 0 <= a / g <= b / g
  {
    MulCancel(g, a / g, b / g + 1);
  }

  lemma DivMinusOne(a: nat, g: int)
    requires g > 0 && a >= g
    ensures (a - g) / g + 1 == a / g
  {
    var q := a / g;
    assert a - g == g * (q - 1) + a % g;
    MulCancel(g, q - 1, (a - g) / g + 1);
    MulCancel(g, (a - g) / g, q - 1 + 1);
  }
}
