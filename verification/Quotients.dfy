// Division facts behind the refill grid and the periodic histories.
module Quotients {

  lemma MulMonotone(x: int, y: int, d: int)
    requires x <= y && 0 <= d
    ensures x * d <= y * d
  {
  }

  lemma MulDistributes(x: int, y: int, d: int)
    ensures (x + y) * d == x * d + y * d
  {
  }

  lemma DivUnique(x: int, d: int, q: int)
    requires 0 < d && q * d <= x < q * d + d
    ensures x / d == q
  {
    var p := x / d;
    var r := x % d;
    assert x == p * d + r;
    if p < q {
      MulMonotone(p + 1, q, d);
      MulDistributes(p, 1, d);
    } else if q < p {
      MulMonotone(q + 1, p, d);
      MulDistributes(q, 1, d);
    }
  }

  // One interval less is one tick less.
  lemma QuotientStep(x: int, d: int)
    requires 0 < d <= x
    ensures (x - d) / d == x / d - 1 && 1 <= x / d
  {
    var q := x / d;
    assert x == q * d + x % d;
    MulDistributes(q - 1, 1, d);
    DivUnique(x - d, d, q - 1);
    if q <= 0 { MulMonotone(q, 0, d); }
  }

  function CeilDiv(x: int, d: int): int
    requires d > 0
  {
    -((-x) / d)
  }

  lemma DivBounds(n: int, x: int, d: int)
    requires d > 0
    ensures n * d <= x ==> n <= x / d
    ensures n * d < x + d ==> n <= CeilDiv(x, d)
  {
    var q := x / d;
    assert x == q * d + x % d;
    if q < n {
      MulMonotone(q + 1, n, d);
      MulDistributes(q, 1, d);
    }
    var m := (-x) / d;
    assert -x == m * d + (-x) % d;
    if -m < n {
      MulMonotone(1 - m, n, d);
      MulDistributes(1, -m, d);
      MulDistributes(m, -m, d);
    }
  }
}
