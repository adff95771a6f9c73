/** The few facts of non-linear arithmetic the other modules rest on. */
module Arith {

  function Min(a: nat, b: nat): nat { if a < b then a else b }

  lemma MulGap(a: nat, b: nat, n: nat)
    requires a < b
    ensures a * n + n <= b * n
    decreases b
  {
    if b == a + 1 {
      assert b * n == a * n + n;
    } else {
      MulGap(a, b - 1, n);
      assert b * n == (b - 1) * n + n;
    }
  }

  /** Quotient and remainder are determined by `x == q * n + r` with `r < n`. */
  lemma DivMod(x: nat, n: nat, q: nat, r: nat)
    requires r < n && x == q * n + r
    ensures x / n == q && x % n == r
  {
    var q', r' := x / n, x % n;
    assert x == n * q' + r';
    assert n * q' == q' * n;
    if q' < q {
      MulGap(q', q, n);
    } else if q < q' {
      MulGap(q, q', n);
    }
  }

  lemma MulLe(a: nat, b: nat, n: nat)
    requires a <= b
    ensures a * n <= b * n
  {
    if a < b { MulGap(a, b, n); }
  }

  /** What is missing to the next multiple of n. */
  function PadSize(len: nat, n: nat): (p: nat)
    requires n > 0
    ensures p < n && (len + p) % n == 0 && (p == 0 <==> len % n == 0)
  {
    if len % n == 0 then 0 else
      PadFills(len, n);
      n - len % n
  }

  lemma PadFills(len: nat, n: nat)
    requires n > 0 && len % n != 0
    ensures (len + (n - len % n)) % n == 0
  {
    var q, r := len / n, len % n;
    assert len == q * n + r;
    assert len + (n - r) == (q + 1) * n + 0 by { assert (q + 1) * n == q * n + n; }
    DivMod(len + (n - r), n, q + 1, 0);
  }
}
