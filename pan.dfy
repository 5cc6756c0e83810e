/** Quadraphonic panning shared by every instrument: the four bilinear corner
    weights of a position normalised to the unit square, in the channel order
    top-left, top-right, bottom-left, bottom-right used by all four scripts. */
module Pan {

  const Channels: nat := 4

  /** `[(1-nx)(1-ny), nx(1-ny), (1-nx)ny, nx ny]`; the weights always add up to one. */
  function Bilinear(nx: real, ny: real): (g: seq<real>)
    ensures |g| == Channels
    ensures g[0] + g[1] + g[2] + g[3] == 1.0
  {
    [(1.0 - nx) * (1.0 - ny), nx * (1.0 - ny), (1.0 - nx) * ny, nx * ny]
  }

  /** Every component lies in [0,1]. */
  ghost predicate InUnit(g: seq<real>)
  {
    forall i :: 0 <= i < |g| ==> 0.0 <= g[i] <= 1.0
  }

  /** Exactly one component is 1 and all others are 0. */
  ghost predicate OneHot(g: seq<real>, k: nat)
  {
    k < |g| && g[k] == 1.0 && forall j :: 0 <= j < |g| && j != k ==> g[j] == 0.0
  }

  lemma ProductNonNegative(a: real, b: real)
    requires 0.0 <= a && 0.0 <= b
    ensures 0.0 <= a * b
  {
  }

  /** Scaling by a fraction never increases a non-negative value, and strictly
      decreases a positive one when the fraction is below one. */
  lemma ScaleByFraction(a: real, b: real)
    requires 0.0 <= a <= 1.0 && 0.0 <= b
    ensures 0.0 <= a * b <= b
    ensures a < 1.0 && 0.0 < b ==> a * b < b
  {
    ProductNonNegative(a, b);
    ProductNonNegative(1.0 - a, b);
    assert (1.0 - a) * b == b - a * b;
    if a < 1.0 && 0.0 < b {
      assert 0.0 < (1.0 - a) * b;
    }
  }

  /** Inside the unit square every weight is a proper fraction. */
  lemma BilinearInUnit(nx: real, ny: real)
    requires 0.0 <= nx <= 1.0 && 0.0 <= ny <= 1.0
    ensures InUnit(Bilinear(nx, ny))
  {
    var g := Bilinear(nx, ny);
    ScaleByFraction(1.0 - nx, 1.0 - ny);
    assert 0.0 <= g[0] <= 1.0;
    ScaleByFraction(nx, 1.0 - ny);
    assert 0.0 <= g[1] <= 1.0;
    ScaleByFraction(1.0 - nx, ny);
    assert 0.0 <= g[2] <= 1.0;
    ScaleByFraction(nx, ny);
    assert 0.0 <= g[3] <= 1.0;
  }

  /** At a corner of the unit square the corner's own channel gets everything:
      left/right picks the column (0 or 1), top/bottom the row (0 or 2). */
  lemma BilinearCorner(nx: real, ny: real)
    requires nx == 0.0 || nx == 1.0
    requires ny == 0.0 || ny == 1.0
    ensures OneHot(Bilinear(nx, ny), (if nx == 1.0 then 1 else 0) + (if ny == 1.0 then 2 else 0))
  {
  }

  /** Off the corners no channel is alone: every weight is strictly below one. */
  lemma BilinearNoCornerNoOneHot(nx: real, ny: real)
    requires 0.0 <= nx <= 1.0 && 0.0 <= ny <= 1.0
    requires 0.0 < nx < 1.0 || 0.0 < ny < 1.0
    ensures forall i :: 0 <= i < Channels ==> Bilinear(nx, ny)[i] < 1.0
  {
    if 0.0 < nx < 1.0 {
      ScaleByFraction(1.0 - nx, 1.0 - ny);
      ScaleByFraction(nx, 1.0 - ny);
      ScaleByFraction(1.0 - nx, ny);
      ScaleByFraction(nx, ny);
    } else {
      ScaleByFraction(1.0 - ny, 1.0 - nx);
      ScaleByFraction(1.0 - ny, nx);
      ScaleByFraction(ny, 1.0 - nx);
      ScaleByFraction(ny, nx);
    }
  }
}
