/** Facts about integer division that the palette cycling and the seeded generator rely on. */
module Numbers {
  /** Multiplying by a natural number keeps the order. */
  lemma MulMono(a: int, b: int, n: nat)
    requires a <= b
    ensures a * n <= b * n
  {
    assert b * n - a * n == (b - a) * n;
  }

  /** Division with remainder is unique. */
  lemma ModUnique(x: int, n: nat, q: int, r: int)
    requires n > 0 && 0 <= r < n && x == q * n + r
    ensures x % n == r
  {
    var q2 := x / n;
    var r2 := x % n;
    assert x == q2 * n + r2;
    assert (q + 1) * n == q * n + n;
    assert (q2 + 1) * n == q2 * n + n;
    if q2 > q {
      MulMono(q + 1, q2, n);
    } else if q2 < q {
      MulMono(q2 + 1, q, n);
    }
  }

  /** Adding the modulus leaves the remainder unchanged. */
  lemma ModuloShift(i: nat, n: nat)
    requires n > 0
    ensures (i + n) % n == i % n
  {
    var q := i / n;
    assert i == q * n + i % n;
    assert (q + 1) * n == q * n + n;
    ModUnique(i + n, n, q + 1, i % n);
  }

  /** Whatever is multiplied by a factor in [0, 1) stays below the scale. */
  lemma ScaleBelow(u: real, scale: real)
    requires 0.0 <= u < 1.0 && scale > 0.0
    ensures 0.0 <= u * scale < scale
  {
  }
}
