/** Division and multiplication facts that the solver does not find by itself. */
module Arithmetic {
  lemma Distribute(a: int, b: int, n: int)
    ensures (a - b) * n == a * n - b * n
  {}

  lemma AtLeast(k: nat, n: nat)
    requires k >= 1
    ensures k * n >= n
  {}

  lemma Times(f: nat, g: nat, q: nat)
    requires q >= g
    ensures f * q >= f * g
  {}

  lemma DivUnique(x: nat, n: nat, q: nat, r: nat)
    requires n > 0 && r < n && x == q * n + r
    ensures x / n == q && x % n == r
  {
    var (p, k) := (x / n, q - x / n);
    assert x == p * n + x % n;
    Distribute(q, p, n);
    if k >= 1 { AtLeast(k, n); }
    if k <= -1 { AtLeast(-k, n); Distribute(p, q, n); }
  }

  lemma Divides(s: nat, n: nat)
    requires n > 0
    ensures (s * n) / n == s && (s * n) % n == 0
  {
    DivUnique(s * n, n, s, 0);
  }

  lemma DivDiv(r: nat, a: nat, b: nat)
    requires a > 0 && b > 0
    ensures a * b > 0 && r / (a * b) == (r / a) / b
  {
    DivTwice(r, a, b, r / a, r % a, (r / a) / b, (r / a) % b);
  }

  lemma DivTwice(r: nat, a: nat, b: nat, q: nat, m: nat, p: nat, l: nat)
    requires r == a * q + m && m < a && q == b * p + l && l < b
    ensures a * b > 0 && r / (a * b) == p
  {
    Remainder(a, b, l, m);
    Expand(a, b, p, l, m);
    DivUnique(r, a * b, p, a * l + m);
  }

  lemma Remainder(a: nat, b: nat, l: nat, m: nat)
    requires l < b && m < a
    ensures a * l + m < a * b
  {
    Times(a, l + 1, b);
  }

  lemma Expand(a: nat, b: nat, p: nat, l: nat, m: nat)
    ensures a * (b * p + l) + m == p * (a * b) + (a * l + m)
  {}
}
