/** Integer facts the checksum and bitfield proofs need. */
module Arith {
  lemma {:induction false} MulAtLeast(d: int, k: int)
    requires d > 0 && k >= 1
    ensures d * k >= d
  {
    if k > 1 {
      MulAtLeast(d, k - 1);
      assert d * k == d * (k - 1) + d;
    }
  }

  /** Quotient and remainder are unique: the usual Euclidean division fact. */
  lemma DivModUnique(n: int, d: int, q: int, r: int)
    requires d > 0 && n == d * q + r && 0 <= r < d
    ensures n / d == q && n % d == r
  {
    var q', r' := n / d, n % d;
    assert n == d * q' + r' && 0 <= r' < d;
    if q' != q {
      assert d * (q' - q) == r - r';
      if q' > q { MulAtLeast(d, q' - q); } else { MulAtLeast(d, q - q'); }
    }
  }

  /** Reducing the running value modulo `d` before shifting and adding leaves the remainder unchanged. */
  lemma ModShiftAdd(x: int, m: int, v: int, d: int)
    requires d > 0
    ensures ((x % d) * m + v) % d == (x * m + v) % d
  {
    var q, a := x / d, (x % d) * m + v;
    assert x * m == (d * q + x % d) * m == d * (q * m) + (x % d) * m;
    DivModUnique(x * m + v, d, a / d + q * m, a % d);
  }
}
