/** Facts about Python's `//` and `%` by a positive divisor (which agree with Dafny's `/` and `%` there). */
module Arithmetic {

  lemma MulSign(d: int, n: int)
    requires n > 0
    ensures d >= 1 ==> d * n >= n
    ensures d <= -1 ==> d * n <= -n
  {
  }

  /** `q` is `x // n` exactly when `x` lies in `[q*n, q*n + n)`; the remainder is then `x - q*n`. */
  lemma DivByBounds(x: int, n: int, q: int)
    requires n > 0 && q * n <= x < q * n + n
    ensures x / n == q && x % n == x - q * n
  {
    var q', r' := x / n, x % n;
    assert x == q' * n + r';
    assert (q - q') * n == q * n - q' * n;
    MulSign(q - q', n);
  }

  lemma MulMod(a: nat, m: nat)
    requires a > 0
    ensures (a * m) % a == 0 && (a * m) / a == m
  {
    DivByBounds(a * m, a, m);
  }

  lemma ModPeriod(k: int, m: int)
    requires m > 0
    ensures (k + m) % m == k % m
  {
    DivByBounds(k + m, m, k / m + 1);
  }
}
