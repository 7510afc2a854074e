/** Facts about products and Euclidean division that the solver needs spelled out. */
module Arithmetic {
  lemma AtLeastOnce(d: int, t: int)
    requires 0 < d
    ensures t >= 1 ==> d * t >= d
    ensures t <= -1 ==> d * t <= 0 - d
  {
    if t >= 1 { assert d * t == d * (t - 1) + d; }
    if t <= -1 { assert d * t == d * (t + 1) - d; }
  }

  lemma Quotient(d: int, n: int, k: int, s: int)
    requires 0 <= s < d && n == d * k + s
    ensures n / d == k && n % d == s
  {
    var q, r := n / d, n % d;
    assert n == d * q + r;
    assert d * (q - k) == d * q - d * k == s - r;
    AtLeastOnce(d, q - k);
  }
}
