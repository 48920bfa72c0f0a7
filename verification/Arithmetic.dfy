/** Facts about products, quotients and remainders used by the other modules. */
module Arithmetic {
  lemma MulMonotone(a: int, b: int, n: int)
    requires a <= b && n >= 0
    ensures a * n <= b * n
  {
  }

  /** Division with remainder has one answer. */
  lemma DivModUnique(x: int, n: int, q: int, r: int)
    requires n > 0 && 0 <= r < n && x == q * n + r
    ensures x / n == q && x % n == r
  {
    var q', r' := x / n, x % n;
    assert x == q' * n + r';
    if q' < q {
      assert (q' + 1) * n == q' * n + n;
      MulMonotone(q' + 1, q, n);
    } else if q' > q {
      assert (q + 1) * n == q * n + n;
      MulMonotone(q + 1, q', n);
    }
  }

  lemma DivModIdentity(x: int, n: int)
    requires n > 0
    ensures x == x / n * n + x % n && 0 <= x % n < n
  {
  }

  lemma MultipleTimes(x: int, y: int, m: int)
    requires m > 0 && x % m == 0
    ensures (x * y) % m == 0 && (y * x) % m == 0
  {
    DivModIdentity(x, m);
    assert x * y == x / m * y * m;
    DivModUnique(x * y, m, x / m * y, 0);
  }

  lemma MultiplePlus(x: int, y: int, m: int)
    requires m > 0 && x % m == 0 && y % m == 0
    ensures (x + y) % m == 0
  {
    DivModIdentity(x, m);
    DivModIdentity(y, m);
    DivModUnique(x + y, m, x / m + y / m, 0);
  }

  /** A remainder by a multiple of `w` keeps the remainder by `w`. */
  lemma ModOfMod(x: int, w: int, n: int)
    requires w > 0 && n > 0 && w * n > 0
    ensures (x % (w * n)) % w == x % w
  {
    var q, r := x / (w * n), x % (w * n);
    DivModIdentity(x, w * n);
    DivModIdentity(r, w);
    assert q * (w * n) == q * n * w;
    assert x == (q * n + r / w) * w + r % w;
    DivModUnique(x, w, q * n + r / w, r % w);
  }

  lemma QuotientBelow(x: int, w: int, n: int)
    requires w > 0 && 0 <= x < w * n
    ensures 0 <= x / w < n
  {
    DivModIdentity(x, w);
    if x / w >= n { MulMonotone(n, x / w, w); }
    if x / w < 0 {
      MulMonotone(x / w, -1, w);
    }
  }
}
