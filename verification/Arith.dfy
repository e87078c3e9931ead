/** Division facts that the solver needs spelled out. */
module Arith {
  lemma {:induction false} MulMono(a: int, b: int, n: nat)
    requires a <= b
    ensures a * n <= b * n
  {}

  lemma {:induction false} MulOne(a: int, n: int)
    ensures (a + 1) * n == a * n + n
  {}

  lemma {:induction false} Distribute(a: int, b: int, n: int)
    ensures (a + b) * n == a * n + b * n
  {}

  /** Quotient and remainder are unique. */
  lemma {:induction false} DivUnique(x: int, q: int, r: int, n: nat)
    requires n > 0 && x == q * n + r && 0 <= r < n
    ensures x / n == q && x % n == r
  {
    var p := x / n;
    assert x == p * n + x % n;
    if p < q {
      MulMono(p + 1, q, n);
      MulOne(p, n);
      assert false;
    } else if p > q {
      MulMono(q + 1, p, n);
      MulOne(q, n);
      assert false;
    }
  }

  lemma {:induction false} DivShift(j: nat, n: nat)
    requires n > 0 && j >= n
    ensures (j - n) / n == j / n - 1 && (j - n) % n == j % n
  {
    var q, r := j / n, j % n;
    assert j == q * n + r;
    MulOne(q - 1, n);
    DivUnique(j - n, q - 1, r, n);
  }

  lemma {:induction false} DivBelow(j: nat, size: nat, n: nat)
    requires n > 0 && j < size * n
    ensures j / n < size
  {
    var q := j / n;
    assert j == q * n + j % n;
    if q >= size {
      MulMono(size, q, n);
      assert false;
    }
  }

  /** Splitting an index into block and offset. */
  lemma {:induction false} BlockIndex(p: nat, r: nat, size: nat, n: nat)
    requires r < n && p < size
    ensures p * n + r < size * n && (p * n + r) / n == p && (p * n + r) % n == r
  {
    DivUnique(p * n + r, p, r, n);
    MulMono(p + 1, size, n);
    MulOne(p, n);
  }
}
