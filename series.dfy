/**
 * Numeric series as pandas holds them, and the arithmetic that the rolling
 * transforms of the moving-average engine apply to one window.
 *
 * A series is a sequence of cells; a cell is `Some(x)` for a number and
 * `None` for NaN. Arithmetic is exact (`real`), not IEEE-754.
 */
module Series {
  import opened Wrappers

  /** The series of the given numbers, with no NaN in it. */
  function Lift(xs: seq<real>): (r: seq<Option<real>>)
    ensures |r| == |xs|
    ensures forall k :: 0 <= k < |xs| ==> r[k] == Some(xs[k])
  {
    seq(|xs|, k requires 0 <= k < |xs| => Some(xs[k]))
  }

  /** No cell of `xs` is NaN. */
  predicate Defined(xs: seq<Option<real>>)
  {
    forall k :: 0 <= k < |xs| ==> xs[k].Some?
  }

  /** The numbers of a series without NaN, in order. */
  function Values(xs: seq<Option<real>>): (r: seq<real>)
    requires Defined(xs)
    ensures |r| == |xs|
  {
    seq(|xs|, k requires 0 <= k < |xs| => xs[k].value)
  }

  /**
   * The `w` numbers of the window that ends at position `i`, as a pandas
   * rolling window with its default `min_periods == w` sees them: nothing
   * when fewer than `w` positions end at `i` or when a cell in the window is NaN.
   */
  function Trailing(xs: seq<Option<real>>, w: nat, i: nat): (r: Option<seq<real>>)
    requires 1 <= w && i < |xs|
    ensures r.Some? ==> |r.value| == w
  {
    if i + 1 < w then None
    else
      var window := xs[i + 1 - w .. i + 1];
      if Defined(window) then Some(Values(window)) else None
  }

  /**
   * The window ending at `i` exists exactly when `w` positions end at `i` and
   * none of them is NaN; it then holds `xs[i - w + 1 .. i]`, oldest first.
   */
  lemma TrailingSpec(xs: seq<Option<real>>, w: nat, i: nat)
    requires 1 <= w && i < |xs|
    ensures Trailing(xs, w, i).Some? <==> w <= i + 1 && forall k :: i + 1 - w <= k <= i ==> xs[k].Some?
    ensures Trailing(xs, w, i).Some? ==> forall k :: 0 <= k < w ==> Trailing(xs, w, i).value[k] == xs[i + 1 - w + k].value
  {
    if i + 1 >= w {
      var window := xs[i + 1 - w .. i + 1];
      assert forall k :: 0 <= k < w ==> window[k] == xs[i + 1 - w + k];
      if Defined(window) {
        forall k | i + 1 - w <= k <= i ensures xs[k].Some? {
          assert window[k - (i + 1 - w)] == xs[k];
        }
      }
    }
  }

  /** The sum of a series, added oldest first. */
  function Sum(s: seq<real>): real
  {
    if s == [] then 0.0 else Sum(s[..|s| - 1]) + s[|s| - 1]
  }

  /** The dot product `np.dot(x, y)` of two series of equal length. */
  function Dot(x: seq<real>, y: seq<real>): real
    requires |x| == |y|
  {
    if x == [] then 0.0 else Dot(x[..|x| - 1], y[..|y| - 1]) + x[|x| - 1] * y[|y| - 1]
  }

  /** The weights `np.arange(1, w + 1)`: the oldest value of a window weighs 1, the newest `w`. */
  function Weights(w: nat): (r: seq<real>)
    ensures |r| == w
  {
    seq(w, k requires 0 <= k < w => (k + 1) as real)
  }

  /** Removing the first value of a non-empty series removes it from the sum. */
  lemma {:induction false} SumFront(s: seq<real>)
    requires |s| > 0
    ensures Sum(s) == s[0] + Sum(s[1..])
  {
    if |s| > 1 {
      SumFront(s[..|s| - 1]);
      assert s[..|s| - 1][1..] == s[1..][..|s| - 2];
    }
  }

  /** A sum of `|s|` values that lie in `[lo, hi]` lies in `[lo * |s|, hi * |s|]`. */
  lemma {:induction false} SumBounds(s: seq<real>, lo: real, hi: real)
    requires forall k :: 0 <= k < |s| ==> lo <= s[k] <= hi
    ensures lo * |s| as real <= Sum(s) <= hi * |s| as real
  {
    if s != [] {
      SumBounds(s[..|s| - 1], lo, hi);
    }
  }

  /** With non-negative weights `y`, a weighted sum of values in `[lo, hi]` lies between `lo` and `hi` times the total weight. */
  lemma DotBounds(x: seq<real>, y: seq<real>, lo: real, hi: real)
    requires |x| == |y|
    requires forall k :: 0 <= k < |x| ==> lo <= x[k] <= hi
    requires forall k :: 0 <= k < |y| ==> 0.0 <= y[k]
    ensures lo * Sum(y) <= Dot(x, y) <= hi * Sum(y)
  {
    DotLowerBound(x, y, lo);
    DotUpperBound(x, y, hi);
  }

  /** With non-negative weights, a weighted sum of values at least `lo` is at least `lo` times the total weight. */
  lemma {:induction false} DotLowerBound(x: seq<real>, y: seq<real>, lo: real)
    requires |x| == |y|
    requires forall k :: 0 <= k < |x| ==> lo <= x[k]
    requires forall k :: 0 <= k < |y| ==> 0.0 <= y[k]
    ensures lo * Sum(y) <= Dot(x, y)
  {
    if x == [] {
      assert y == [];
      ProductZero(lo, Sum(y));
    } else {
      var n := |x| - 1;
      DotLowerBound(x[..n], y[..n], lo);
      LowerStep(Dot(x[..n], y[..n]), Sum(y[..n]), x[n], y[n], lo, Dot(x, y), Sum(y));
    }
  }

  /** With non-negative weights, a weighted sum of values at most `hi` is at most `hi` times the total weight. */
  lemma {:induction false} DotUpperBound(x: seq<real>, y: seq<real>, hi: real)
    requires |x| == |y|
    requires forall k :: 0 <= k < |x| ==> x[k] <= hi
    requires forall k :: 0 <= k < |y| ==> 0.0 <= y[k]
    ensures Dot(x, y) <= hi * Sum(y)
  {
    if x == [] {
      assert y == [];
      ProductZero(hi, Sum(y));
    } else {
      var n := |x| - 1;
      DotUpperBound(x[..n], y[..n], hi);
      UpperStep(Dot(x[..n], y[..n]), Sum(y[..n]), x[n], y[n], hi, Dot(x, y), Sum(y));
    }
  }

  /** One more term `a * b` with `lo <= a` and `b >= 0` keeps a weighted sum at least `lo` times its total weight. */
  lemma LowerStep(dot: real, total: real, a: real, b: real, lo: real, dot': real, total': real)
    requires lo * total <= dot && lo <= a && 0.0 <= b
    requires dot' == dot + a * b && total' == total + b
    ensures lo * total' <= dot'
  {
    ProductNonNegative(a - lo, b);
    Distributes(lo, total, b);
  }

  /** One more term `a * b` with `a <= hi` and `b >= 0` keeps a weighted sum at most `hi` times its total weight. */
  lemma UpperStep(dot: real, total: real, a: real, b: real, hi: real, dot': real, total': real)
    requires dot <= hi * total && a <= hi && 0.0 <= b
    requires dot' == dot + a * b && total' == total + b
    ensures dot' <= hi * total'
  {
    ProductNonNegative(hi - a, b);
    Distributes(hi, total, b);
  }

  /** A product with a zero factor is zero. */
  lemma ProductZero(a: real, b: real)
    requires b == 0.0
    ensures a * b == 0.0
  {
  }

  /** A product of two non-negative numbers is non-negative. */
  lemma ProductNonNegative(a: real, b: real)
    requires a >= 0.0 && b >= 0.0
    ensures a * b >= 0.0
  {
  }

  /** Multiplication distributes over addition. */
  lemma Distributes(c: real, p: real, q: real)
    ensures c * (p + q) == c * p + c * q
  {
  }

  /** Sliding a window one step to the right adds its new last value and drops its old first one. */
  lemma SumSlide(s: seq<real>, a: nat, b: nat)
    requires a < b < |s|
    ensures Sum(s[a + 1 .. b + 1]) == Sum(s[a .. b]) + (s[b] - s[a])
  {
    var t := s[a .. b + 1];
    assert t[..|t| - 1] == s[a .. b];
    assert t[1..] == s[a + 1 .. b + 1];
    SumFront(t);
  }

  /** The weights `1..w` add up to the triangular number `w * (w + 1) / 2`. */
  lemma {:induction false} WeightsTotal(w: nat)
    ensures Sum(Weights(w)) == (w * (w + 1) / 2) as real
  {
    if w > 0 {
      WeightsTotal(w - 1);
      assert Weights(w)[..w - 1] == Weights(w - 1);
      assert (w * (w + 1) / 2) == ((w - 1) * w / 2) + w;
    }
  }

  /** The weights of a non-empty window have a positive total, so dividing by it is defined. */
  lemma WeightsTotalPositive(w: nat)
    requires w >= 1
    ensures Sum(Weights(w)) > 0.0
  {
    WeightsTotal(w);
  }

  /** Dividing by a positive count keeps a value that lies between `lo` and `hi` times the count between `lo` and `hi`. */
  lemma DivideBounds(x: real, n: real, lo: real, hi: real)
    requires n > 0.0
    requires lo * n <= x <= hi * n
    ensures lo <= x / n <= hi
  {
    var q := x / n;
    assert (q - lo) * n == x - lo * n;
    assert (hi - q) * n == hi * n - x;
  }

  /** The mean of a non-empty window, as `rolling(...).mean()` takes it. */
  function Mean(v: seq<real>): real
    requires |v| >= 1
  {
    Sum(v) / |v| as real
  }

  /** `np.dot(x, weights) / weights.sum()` for a non-empty window `x` and `weights = 1..|x|`. */
  function WeightedMean(v: seq<real>): real
    requires |v| >= 1
  {
    WeightsTotalPositive(|v|);
    Dot(v, Weights(|v|)) / Sum(Weights(|v|))
  }

  /** The mean of values in `[lo, hi]` lies in `[lo, hi]`. */
  lemma MeanBounds(v: seq<real>, lo: real, hi: real)
    requires |v| >= 1
    requires forall k :: 0 <= k < |v| ==> lo <= v[k] <= hi
    ensures lo <= Mean(v) <= hi
  {
    SumBounds(v, lo, hi);
    DivideBounds(Sum(v), |v| as real, lo, hi);
  }

  /** The weighted mean of values in `[lo, hi]` lies in `[lo, hi]`. */
  lemma WeightedMeanBounds(v: seq<real>, lo: real, hi: real)
    requires |v| >= 1
    requires forall k :: 0 <= k < |v| ==> lo <= v[k] <= hi
    ensures lo <= WeightedMean(v) <= hi
  {
    var weights := Weights(|v|);
    WeightsTotalPositive(|v|);
    assert forall k :: 0 <= k < |weights| ==> 0.0 <= weights[k];
    DotBounds(v, weights, lo, hi);
    DivideBounds(Dot(v, weights), Sum(weights), lo, hi);
  }
}
