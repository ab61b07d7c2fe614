/** Small vocabulary shared by the modules of this project. */
module Common {
  datatype Option<+T> = None | Some(value: T)

  datatype Result<+T, +E> = Ok(value: T) | Err(error: E)

  function Min(a: int, b: int): int { if a <= b then a else b }

  function Max(a: int, b: int): int { if a >= b then a else b }

  // ---------- Division with remainder ----------

  lemma MulAtLeast(n: int, k: int)
    requires n >= 1 && k >= 1
    ensures n * k >= n
  {
  }

  lemma QuotientUnique(a: int, n: int, q: int, r: int)
    requires n >= 1 && a == n * q + r && 0 <= r < n
    ensures a / n == q && a % n == r
  {
    var q1, r1 := a / n, a % n;
    var up, down := n * (q1 - q), n * (q - q1);
    assert a == n * q1 + r1;
    assert up == r - r1 && down == r1 - r;
    if q1 > q { MulAtLeast(n, q1 - q); }
    if q1 < q { MulAtLeast(n, q - q1); }
  }

  /** Quotient and remainder of the next number. */
  lemma NextQuotient(n: int, k: int)
    requires n >= 1
    ensures k % n == n - 1 ==> (k + 1) / n == k / n + 1 && (k + 1) % n == 0
    ensures k % n != n - 1 ==> (k + 1) / n == k / n && (k + 1) % n == k % n + 1
  {
    var q, r := k / n, k % n;
    assert k == n * q + r;
    if r == n - 1 {
      assert k + 1 == n * (q + 1) + 0;
      QuotientUnique(k + 1, n, q + 1, 0);
    } else {
      QuotientUnique(k + 1, n, q, r + 1);
    }
  }
}
