/** Facts about Euclidean remainders, the `%` all four scripts use for wrapping
    indices (Python's `%` agrees with it for a positive divisor). */
module Modular {

  lemma MulAtLeastOne(n: int, q: int)
    requires n > 0
    ensures q >= 1 ==> n * q >= n
    ensures q <= -1 ==> n * q <= -n
  {
    if q >= 1 {
      assert n * q == n + n * (q - 1);
    }
    if q <= -1 {
      assert n * q == -n + n * (q + 1);
    }
  }

  /** The Euclidean remainder is the unique `r` in [0, n) with `a = n*q + r`. */
  lemma ModUnique(a: int, n: int, q: int, r: int)
    requires n > 0 && 0 <= r < n && a == n * q + r
    ensures a % n == r
  {
    var q', r' := a / n, a % n;
    assert n * (q - q') == r' - r;
    MulAtLeastOne(n, q - q');
    if q != q' {
      assert false;
    }
  }

  /** Stepping an index forward and back modulo `n` (either order) is the identity. */
  lemma WrapStepInverse(i: int, n: int)
    requires 0 <= i < n
    ensures ((i + 1) % n - 1) % n == i
    ensures ((i - 1) % n + 1) % n == i
  {
    ModUnique(i, n, 0, i);
    ModUnique(-1, n, -1, n - 1);
    if i + 1 < n {
      ModUnique(i + 1, n, 0, i + 1);
    } else {
      ModUnique(i + 1, n, 1, 0);
    }
    if i > 0 {
      ModUnique(i - 1, n, 0, i - 1);
    } else {
      ModUnique(n, n, 1, 0);
    }
  }

  /** Adding the modulus does not change the remainder. */
  lemma ModShift(a: int, n: int)
    requires n > 0
    ensures (a + n) % n == a % n
  {
    var q := a / n;
    assert a == n * q + a % n;
    assert a + n == n * (q + 1) + a % n;
    ModUnique(a + n, n, q + 1, a % n);
  }
}
