/** The few facts about division and multiplication that the proofs elsewhere need. */
module Arithmetic {

  lemma MulMonotone(a: nat, b: nat, c: nat, d: nat)
    requires a <= b && c <= d
    ensures a * c <= b * d
  {
    assert a * c <= b * c <= b * d;
  }

  lemma MulAtLeast(k: int, n: nat)
    requires n > 0
    ensures k >= 1 ==> k * n >= n
    ensures k <= -1 ==> k * n + n <= 0
  {
    if k >= 1 { assert k * n == n + (k - 1) * n; MulMonotone(0, k - 1, 0, n); }
    if k <= -1 { assert -k * n == n + (-k - 1) * n; MulMonotone(0, -k - 1, 0, n); }
  }

  /** Quotient and remainder are unique. */
  lemma DivModUnique(x: nat, n: nat, q: nat, r: nat)
    requires n > 0 && r < n && x == q * n + r
    ensures x / n == q && x % n == r
  {
    var d := x / n - q;
    assert x == (x / n) * n + x % n;
    assert d * n == (x / n) * n - q * n;
    MulAtLeast(d, n);
  }

  lemma ModDiffers(a: nat, b: nat, n: nat)
    requires n > 0 && a < b < a + n
    ensures a % n != b % n
  {
    var d := b / n - a / n;
    assert a == (a / n) * n + a % n && b == (b / n) * n + b % n;
    assert d * n == (b / n) * n - (a / n) * n;
    MulAtLeast(d, n);
  }

  /** Rounding once loses no more than rounding before scaling. */
  lemma DivScale(b: nat, n: nat)
    ensures b * n / 8 >= (b * 1 / 8) * n
  {
    var x := (b / 8) * n;
    MulMonotone(8 * (b / 8), b, n, n);
    assert 8 * (b / 8) * n == 8 * x;
    DivAtLeast(b * n, x);
  }

  lemma DivAtLeast(m: nat, x: nat)
    requires 8 * x <= m
    ensures m / 8 >= x
  {
  }
}
