/** Multiplication facts that the solver should not have to rediscover. */
module Arithmetic {

  lemma MulLe(a: int, b: int, c: nat)
    requires a <= b
    ensures a * c <= b * c
  {
    assert (b - a) * c >= 0;
  }

  lemma MulStep(a: int, c: int)
    ensures (a + 1) * c == a * c + c
    ensures (a - 1) * c == a * c - c
  {
  }

  lemma DivisionBounds(a: nat, d: nat)
    requires d > 0
    ensures (a / d) * d <= a < (a / d) * d + d
  {
    assert a == (a / d) * d + a % d;
  }

  /** Cell (r, c) of a row-major array of `rows` by `cols` cells lies inside it. */
  lemma CellInside(r: nat, c: nat, rows: nat, cols: nat)
    requires r < rows && c < cols
    ensures 0 <= r * cols + c < rows * cols
  {
    MulLe(r + 1, rows, cols);
    MulStep(r, cols);
  }
}
