/** Facts about division with remainder that the ring structures share. */
module Arithmetic {

  lemma MulAtLeast(d: int, n: int)
    requires d >= 1 && n >= 0
    ensures d * n >= n
  {
    assert d * n == (d - 1) * n + n;
  }

  lemma QuotientUnique(q: int, r: int, q': int, r': int, n: int)
    requires 0 <= r < n && 0 <= r' < n && q * n + r == q' * n + r'
    ensures q == q' && r == r'
  {
    assert (q - q') * n == q * n - q' * n && (q' - q) * n == q' * n - q * n;
    if q > q' {
      MulAtLeast(q - q', n);
    } else if q < q' {
      MulAtLeast(q' - q, n);
    }
  }

  lemma ModIs(h: int, n: int, q: int, r: int)
    requires 0 <= r < n && h == q * n + r
    ensures h % n == r && h / n == q
  {
    assert h == h / n * n + h % n;
    QuotientUnique(q, r, h / n, h % n, n);
  }

  /** Adding `k` to a number moves its remainder forward by `k`, once round at most. */
  lemma ModAdd(h: int, k: int, n: int)
    requires n > 0 && 0 <= k <= n
    ensures (h + k) % n == if h % n + k < n then h % n + k else h % n + k - n
  {
    assert h == h / n * n + h % n;
    if h % n + k < n {
      ModIs(h + k, n, h / n, h % n + k);
    } else {
      assert (h / n + 1) * n == h / n * n + n;
      ModIs(h + k, n, h / n + 1, h % n + k - n);
    }
  }

  /** Numbers less than `n` apart have different remainders. */
  lemma ModDistinct(a: int, b: int, n: int)
    requires n > 0 && a < b < a + n
    ensures a % n != b % n
  {
    ModAdd(a, b - a, n);
  }
}
