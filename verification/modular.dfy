// Arithmetic of a wrapping counter.
module Modular {

  // Unsigned addition of a small constant.
  function Wrap(x: nat, modulus: nat): nat {
    if x < modulus then x else x - modulus
  }

  lemma MulGap(a: nat, b: nat, m: nat)
    requires a < b
    ensures a * m + m <= b * m
  {
    assert b * m == a * m + m + (b - a - 1) * m;
    assert 0 <= (b - a - 1) * m;
  }

  lemma ModUnique(x: nat, q: nat, r: nat, m: nat)
    requires 0 < m && x == q * m + r && r < m
    ensures x % m == r
  {
    var q0, r0 := x / m, x % m;
    assert x == q0 * m + r0;
    if q < q0 {
      MulGap(q, q0, m);
    } else if q0 < q {
      MulGap(q0, q, m);
    }
  }

  lemma ResidueStep(t: nat, m: nat, d: nat)
    requires d <= 2 <= m
    ensures (t + d) % m == Wrap(t % m + d, m)
  {
    var q, r := t / m, t % m;
    assert t == q * m + r;
    if r + d < m {
      ModUnique(t + d, q, r + d, m);
    } else {
      assert (q + 1) * m == q * m + m;
      ModUnique(t + d, q + 1, r + d - m, m);
    }
  }

  // Two counts less than a period apart with equal residues are equal.
  lemma SameResidue(a: nat, b: nat, m: nat)
    requires 0 < m && a <= b < a + m && a % m == b % m
    ensures a == b
  {
    var x, y := a / m, b / m;
    assert a == x * m + a % m && b == y * m + b % m;
    if x < y {
      MulGap(x, y, m);
    }
  }

  lemma EvenResidue(t: nat, m: nat)
    requires 0 < m && m % 2 == 0
    ensures (t % m) % 2 == t % 2
  {
    var q, h := t / m, m / 2;
    assert t == q * m + t % m;
    assert m == 2 * h;
    assert q * m == 2 * (q * h);
  }
}
