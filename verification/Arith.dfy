/** The few facts about division that addressing and capacity need. */
module Arith {

  /** The number with quotient `q` and remainder `r` by `n`. */
  function Num(n: nat, q: nat, r: nat): nat { n * q + r }

  lemma NumOf(x: nat, n: nat)
    requires n > 0
    ensures x == Num(n, x / n, x % n)
  {
  }

  /** Dividing takes a number apart into quotient and remainder in one way only. */
  lemma DivMod(n: nat, q: nat, r: nat)
    requires r < n
    ensures (n * q + r) / n == q && (n * q + r) % n == r
  {
    var x := n * q + r;
    var d := x / n;
    assert x == n * d + x % n;
    if d < q {
      MulMono(n, d + 1, q);
    } else if d > q {
      MulMono(n, q + 1, d);
    }
  }

  lemma {:induction false} MulMono(n: nat, a: nat, b: nat)
    requires a <= b
    ensures n * a <= n * b
  {
    assert n * b == n * a + n * (b - a);
  }

  lemma DivBound(x: nat, n: nat, k: nat)
    requires n > 0 && x < n * k
    ensures x / n < k
  {
    assert x == n * (x / n) + x % n;
    if x / n >= k {
      MulMono(n, k, x / n);
    }
  }

  /** Digit `q` with remainder `r` stays below `n * k`. */
  lemma DigitBound(n: nat, q: nat, r: nat, k: nat)
    requires r < n && q < k
    ensures n * q + r < n * k
  {
    MulMono(n, q + 1, k);
    assert n * (q + 1) == n * q + n;
  }

  lemma DivDiv(x: nat, a: nat, b: nat)
    requires a > 0 && b > 0
    ensures a * b > 0 && x / (a * b) == x / a / b
  {
    var q := x / a / b;
    var s := x / a % b;
    var r := x % a;
    assert x / a == b * q + s;
    assert x == a * (x / a) + r;
    assert a * (b * q + s) == a * b * q + a * s;
    DigitBound(a, s, r, b);
    DivMod(a * b, q, a * s + r);
  }
}
