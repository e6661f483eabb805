/** Facts about products, quotients and remainders that the solver needs spelled out. */
module Arithmetic {

  type pos = n: nat | n > 0 witness 1

  lemma MulOrder(a: int, b: int, n: nat)
    ensures a < b ==> a * n + n <= b * n
  {
    if a < b {
      assert (a + 1) * n <= b * n;
    }
  }

  lemma Distribute(a: int, b: int, c: int)
    ensures (a + b) * c == a * c + b * c
  {}

  lemma Associate(a: int, b: int, c: int)
    ensures (a * b) * c == a * (b * c)
  {}

  /** The quotient and the remainder are the only ones. */
  lemma DivModUnique(x: int, q: int, r: int, n: pos)
    requires x == q * n + r && 0 <= r < n
    ensures x / n == q && x % n == r
  {
    var p := x / n;
    assert x == p * n + x % n;
    MulOrder(p, q, n);
    MulOrder(q, p, n);
  }

  lemma DivModParts(x: int, n: pos)
    ensures x == (x / n) * n + x % n && 0 <= x % n < n
  {}
}
