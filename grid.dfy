/** The sample grid of one frame: one complex point per pixel, row-major, the
    imaginary axis as the outer index. */
module Grid {
  import opened Plane

  /** The values an arange(lo, hi, step) call yields, idealised: lo + k·step for each
      k below count. Exact arithmetic gives count = n for the frame's ranges; float
      stepping may give n + 1, so count is left to the caller. */
  function Arange(lo: real, step: real, count: nat): (r: seq<real>)
    ensures |r| == count
  {
    seq(count, k => lo + k as real * step)
  }

  /** An axis' step, its span divided into n, is 0 exactly when the span is. */
  lemma StepZero(span: real, n: nat)
    requires n > 0
    ensures span / n as real == 0.0 <==> span == 0.0
  {
    if span / n as real == 0.0 {
      assert span == (span / n as real) * n as real;
    }
  }

  /** One element more than n when float stepping overshoots, else none. */
  function Surplus(overshoot: bool): nat
  {
    if overshoot then 1 else 0
  }

  /** The guard that drops a surplus last element from an axis. */
  function Truncate(xs: seq<real>, n: nat): (r: seq<real>)
    ensures |xs| <= n ==> r == xs
    ensures |xs| == n + 1 ==> r == xs[..n]
  {
    if |xs| > n then xs[..|xs| - 1] else xs
  }

  /** One axis of the frame: n steps of (hi - lo)/n from lo, as arange yields them
      (n of them, or n + 1 when float stepping overshoots) and the guard truncates them.
      Either way exactly n remain. */
  function Axis(lo: real, hi: real, n: nat, overshoot: bool): (r: seq<real>)
    requires n > 0
    ensures |r| == n
  {
    Truncate(Arange(lo, (hi - lo) / n as real, n + Surplus(overshoot)), n)
  }

  /** The k-th value of an axis is lo plus k steps, whether or not arange overshot. */
  lemma AxisAt(lo: real, hi: real, n: nat, overshoot: bool, k: nat)
    requires k < n
    ensures Axis(lo, hi, n, overshoot)[k] == lo + k as real * ((hi - lo) / n as real)
  {
    var xs := Arange(lo, (hi - lo) / n as real, n + Surplus(overshoot));
    assert Axis(lo, hi, n, overshoot)[k] == xs[k];
  }

  /** The last of n steps of (hi - lo)/n from lo, step number k = n - 1, falls one step
      short of hi. */
  lemma LastStep(lo: real, hi: real, n: nat, k: nat)
    requires n > 0 && k == n - 1
    ensures lo + k as real * ((hi - lo) / n as real) == hi - (hi - lo) / n as real
  {
    var d := (hi - lo) / n as real;
    assert d * n as real == hi - lo;
    assert k as real * d == d * n as real - d;
  }

  /** An axis starts at lo and ends one step short of hi. */
  lemma AxisEnds(lo: real, hi: real, n: nat, overshoot: bool)
    requires n > 0
    ensures Axis(lo, hi, n, overshoot)[0] == lo
    ensures Axis(lo, hi, n, overshoot)[n - 1] == hi - (hi - lo) / n as real
  {
    AxisAt(lo, hi, n, overshoot, 0);
    AxisAt(lo, hi, n, overshoot, n - 1);
    LastStep(lo, hi, n, n - 1);
  }

  /** One row of the outer sum x + y[row]·i. */
  function Row(xs: seq<real>, y: real): (r: seq<Complex>)
    ensures |r| == |xs|
  {
    seq(|xs|, col requires 0 <= col < |xs| => Complex(xs[col], y))
  }

  /** np.ravel(x + y[:, newaxis]): the rows for y[0], y[1], ... laid end to end. */
  function Ravel(xs: seq<real>, ys: seq<real>): (g: seq<Complex>)
    ensures |g| == |xs| * |ys|
  {
    if ys == [] then []
    else
      var rest := Ravel(xs, ys[1..]);
      assert |xs| * |ys| == |xs| + |xs| * (|ys| - 1);
      Row(xs, ys[0]) + rest
  }

  /** Multiplication facts the index arithmetic needs, kept apart from sequence reasoning. */
  lemma MulSucc(a: nat, n: nat)
    ensures (a + 1) * n == a * n + n
  {
  }

  lemma MulBelow(a: nat, b: nat, n: nat)
    requires a < b
    ensures a * n + n <= b * n
  {
    MulSucc(a, n);
    assert (a + 1) * n <= b * n;
  }

  /** Point row·|x| + col of the flattened grid is x[col] + y[row]·i. */
  lemma {:induction false} RavelAt(xs: seq<real>, ys: seq<real>, row: nat, col: nat)
    requires row < |ys| && col < |xs|
    ensures row * |xs| + col < |xs| * |ys|
    ensures Ravel(xs, ys)[row * |xs| + col] == Complex(xs[col], ys[row])
  {
    var n := |xs|;
    MulBelow(row, |ys|, n);
    var g, rest := Ravel(xs, ys), Ravel(xs, ys[1..]);
    assert g == Row(xs, ys[0]) + rest;
    if row > 0 {
      RavelAt(xs, ys[1..], row - 1, col);
      MulSucc(row - 1, n);
      var k := (row - 1) * n + col;
      assert row * n + col == k + n;
      assert g[k + n] == rest[k];
    }
  }

  /** The frame's sample grid for bounds xa..xb (real axis) and yb..ya (imaginary axis)
      at width × height pixels: row `row` holds the points x[col] + y[row]·i. */
  function FrameGrid(xa: real, xb: real, yb: real, ya: real, width: nat, height: nat,
                     xOvershoot: bool, yOvershoot: bool): (g: seq<Complex>)
    requires width > 0 && height > 0
    ensures |g| == width * height
  {
    Ravel(Axis(xa, xb, width, xOvershoot), Axis(yb, ya, height, yOvershoot))
  }

  /** The pixel in row `row`, column `col` samples xa + col·dx + (yb + row·dy)·i, where
      dx and dy are the steps of the two axes. */
  lemma FrameGridAt(xa: real, xb: real, yb: real, ya: real, width: nat, height: nat,
                    xOvershoot: bool, yOvershoot: bool, row: nat, col: nat)
    requires width > 0 && height > 0
    requires row < height && col < width
    ensures row * width + col < width * height
    ensures FrameGrid(xa, xb, yb, ya, width, height, xOvershoot, yOvershoot)[row * width + col]
         == Complex(Axis(xa, xb, width, xOvershoot)[col], Axis(yb, ya, height, yOvershoot)[row])
  {
    RavelAt(Axis(xa, xb, width, xOvershoot), Axis(yb, ya, height, yOvershoot), row, col);
  }

  /** The last pixel of a height × width grid sits at row height - 1, column width - 1. */
  lemma LastIndex(height: nat, width: nat)
    requires height > 0 && width > 0
    ensures (height - 1) * width + (width - 1) == width * height - 1
  {
    MulSucc(height - 1, width);
    assert height * width == width * height;
  }

  /** The first pixel samples the corner xa + yb·i; the last samples one step short of
      the opposite corner xb + ya·i on each axis. */
  lemma FrameGridCorners(xa: real, xb: real, yb: real, ya: real, width: nat, height: nat,
                         xOvershoot: bool, yOvershoot: bool)
    requires width > 0 && height > 0
    ensures FrameGrid(xa, xb, yb, ya, width, height, xOvershoot, yOvershoot)[0] == Complex(xa, yb)
    ensures FrameGrid(xa, xb, yb, ya, width, height, xOvershoot, yOvershoot)[width * height - 1]
         == Complex(xb - (xb - xa) / width as real, ya - (ya - yb) / height as real)
  {
    FrameGridAt(xa, xb, yb, ya, width, height, xOvershoot, yOvershoot, 0, 0);
    FrameGridAt(xa, xb, yb, ya, width, height, xOvershoot, yOvershoot, height - 1, width - 1);
    LastIndex(height, width);
    AxisEnds(xa, xb, width, xOvershoot);
    AxisEnds(yb, ya, height, yOvershoot);
  }
}
