/** Facts about products and quotients that the grid and calendar arguments share. */
module Arithmetic {
  lemma AtLeast(n: int, d: int)
    requires n >= 1 && d >= 1
    ensures n * d >= n
  {
  }

  /** Quotient and remainder are determined. */
  lemma Division(x: int, n: int, q: int, r: int)
    requires n >= 1 && 0 <= r < n && x == n * q + r
    ensures x / n == q && x % n == r
  {
    var q', r' := x / n, x % n;
    assert n * (q - q') == r' - r && n * (q' - q) == r - r';
    if q > q' { AtLeast(n, q - q'); }
    if q' > q { AtLeast(n, q' - q); }
  }
}
