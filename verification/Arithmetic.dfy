/** Steps of integer arithmetic that the solver takes better one at a time. */
module Arithmetic {
  lemma Distribute(a: int, b: int, c: int)
    ensures a * (b + c) == a * b + a * c
  {}

  lemma Associate(a: int, b: int, c: int)
    ensures a * (b * c) == (a * b) * c
  {}

  lemma AtLeast(m: nat, k: nat)
    requires k > 0
    ensures m * k >= m
  {}

  lemma UniqueQuotient(m: nat, q: int, r: int, u: int, w: int)
    requires 0 <= r < m && 0 <= w < m && m * q + r == m * u + w
    ensures q == u && r == w
  {
    if q < u {
      AtLeast(m, u - q);
      Distribute(m, q, u - q);
    } else if u < q {
      AtLeast(m, q - u);
      Distribute(m, u, q - u);
    }
  }

  lemma DivMod(h: nat, m: nat)
    requires m > 0
    ensures h == m * (h / m) + h % m && 0 <= h % m < m && h / m >= 0
  {}

  lemma BelowProduct(a: nat, b: nat, v: nat, r: nat)
    requires v < b && r < a
    ensures a * v + r < a * b
  {
    Distribute(a, v, b - v);
    AtLeast(a, b - v);
  }

  lemma ProductPositive(a: nat, b: nat)
    requires a > 0 && b > 0
    ensures a * b > 0
  {}

  /** The low bits of a product of powers, one factor after the other. */
  lemma ModSplit(h: nat, a: nat, b: nat)
    requires a > 0 && b > 0
    ensures a * b > 0 && h % (a * b) == h % a + a * ((h / a) % b)
  {
    ProductPositive(a, b);
    DivMod(h, a);
    DivMod(h / a, b);
    DivMod(h, a * b);
    var u, v, r := (h / a) / b, (h / a) % b, h % a;
    Distribute(a, b * u, v);
    Associate(a, b, u);
    BelowProduct(a, b, v, r);
    UniqueQuotient(a * b, h / (a * b), h % (a * b), u, a * v + r);
  }

  lemma DistributeLeft(a: nat, b: nat, c: nat)
    ensures (a + b) * c == a * c + b * c && 0 * c == 0
  {}

  lemma Commute(a: nat, b: nat)
    ensures a * b == b * a
  {}
}
