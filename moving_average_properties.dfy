/**
 * What the moving-average engine promises about its output: the warm-up gap,
 * the value at each defined position, the exponential recurrence, the Hull
 * sub-windows, and that a constant series is left as it is.
 */
module MovingAverageProperties {
  import opened Wrappers
  import opened Series
  import opened MovingAverage

  // ---------------------------------------------------------------------------
  // Rolling windows over a series without NaN

  /** On a series without NaN, the window ending at `i` is there exactly when `i >= w - 1`. */
  lemma TrailingOnPrices(data: seq<real>, w: nat, i: nat)
    requires 1 <= w && i < |data|
    ensures Trailing(Lift(data), w, i) == if i + 1 < w then None else Some(data[i + 1 - w .. i + 1])
  {
    var t := Trailing(Lift(data), w, i);
    TrailingSpec(Lift(data), w, i);
    if i + 1 >= w {
      assert t.Some?;
      assert t.value == data[i + 1 - w .. i + 1];
    }
  }

  /** The numbers of a rolling window respect any bounds that the series' numbers respect. */
  lemma WindowBounds(data: seq<Option<real>>, w: nat, i: nat, lo: real, hi: real)
    requires 1 <= w && i < |data|
    requires forall k :: 0 <= k < |data| && data[k].Some? ==> lo <= data[k].value <= hi
    ensures var t := Trailing(data, w, i);
      t.Some? ==> forall k :: 0 <= k < |t.value| ==> lo <= t.value[k] <= hi
  {
    var t := Trailing(data, w, i);
    TrailingSpec(data, w, i);
    if t.Some? {
      forall k | 0 <= k < |t.value| ensures lo <= t.value[k] <= hi {
        assert data[i + 1 - w + k].Some?;
      }
    }
  }

  // ---------------------------------------------------------------------------
  // SMA

  /**
   * SMA is undefined at the first `w - 1` positions (at every position when the
   * window is longer than the series) and is the mean of the last `w` prices elsewhere.
   */
  lemma SmaOnPrices(data: seq<real>, w: nat, i: nat)
    requires 1 <= w && i < |data|
    ensures SimpleMovingAverage(Lift(data), w)[i]
         == if i < w - 1 then None else Some(Sum(data[i + 1 - w .. i + 1]) / w as real)
  {
    TrailingOnPrices(data, w, i);
  }

  /** A full SMA window without NaN gives the mean of the prices from `start` up to, not including, `end`. */
  lemma SmaWindow(data: seq<real>, w: nat, start: nat, last: nat, end: nat)
    requires 1 <= w && start + w == end == last + 1 <= |data|
    ensures SimpleMovingAverage(Lift(data), w)[last] == Some(Mean(data[start .. end]))
  {
    TrailingOnPrices(data, w, last);
  }

  /**
   * Once a full window has passed, the SMA at `i` is the mean of the window
   * before it (the SMA at `i - 1`, by `SmaOnPrices`) plus the newest price
   * minus the oldest, divided by `w`.
   */
  lemma SmaSlide(data: seq<real>, w: nat, i: nat)
    requires 1 <= w <= i < |data|
    ensures SimpleMovingAverage(Lift(data), w)[i]
         == Some(Mean(data[i - w .. i]) + (data[i] - data[i - w]) / w as real)
  {
    SmaWindow(data, w, i - w + 1, i, i + 1);
    MeanSlide(data, w, i);
  }

  /** Sliding a window of `w` prices one step adds the newest price minus the oldest, divided by `w`, to its mean. */
  lemma MeanSlide(data: seq<real>, w: nat, i: nat)
    requires 1 <= w <= i < |data|
    ensures Mean(data[i - w + 1 .. i + 1]) == Mean(data[i - w .. i]) + (data[i] - data[i - w]) / w as real
  {
    var n, older, change := w as real, Sum(data[i - w .. i]), data[i] - data[i - w];
    assert Mean(data[i - w .. i]) == older / n;
    assert Mean(data[i - w + 1 .. i + 1]) == (older + change) / n by {
      SumSlide(data, i - w, i);
    }
    DivideDistributes(older, change, n);
  }

  /** Division by a non-zero count distributes over a sum. */
  lemma DivideDistributes(a: real, b: real, n: real)
    requires n != 0.0
    ensures (a + b) / n == a / n + b / n
  {
  }

  /** Every defined SMA value lies between bounds that every number of the series respects. */
  lemma SmaBounds(data: seq<Option<real>>, w: nat, lo: real, hi: real)
    requires w >= 1
    requires forall k :: 0 <= k < |data| && data[k].Some? ==> lo <= data[k].value <= hi
    ensures var r := SimpleMovingAverage(data, w);
      forall i :: 0 <= i < |r| && r[i].Some? ==> lo <= r[i].value <= hi
  {
    var r := SimpleMovingAverage(data, w);
    forall i | 0 <= i < |r| && r[i].Some? ensures lo <= r[i].value <= hi {
      WindowBounds(data, w, i, lo, hi);
      MeanBounds(Trailing(data, w, i).value, lo, hi);
    }
  }

  // ---------------------------------------------------------------------------
  // EMA

  /** Each step of the scan mixes the next price with the average before it. */
  lemma {:induction false} EmaScanAt(prev: real, xs: seq<real>, alpha: real, j: nat)
    requires j < |xs|
    decreases j
    ensures EmaScan(prev, xs, alpha)[j]
         == alpha * xs[j] + (1.0 - alpha) * (if j == 0 then prev else EmaScan(prev, xs, alpha)[j - 1])
  {
    if j > 0 {
      var next := alpha * xs[0] + (1.0 - alpha) * prev;
      EmaScanAt(next, xs[1..], alpha, j - 1);
    }
  }

  /** The values of an exponential average start at the first price and then follow the scan step. */
  lemma EmaValuesAt(xs: seq<real>, alpha: real, i: nat)
    requires 1 <= i < |xs|
    ensures EmaValues(xs, alpha)[0] == xs[0]
    ensures EmaValues(xs, alpha)[i] == alpha * xs[i] + (1.0 - alpha) * EmaValues(xs, alpha)[i - 1]
  {
    var values := EmaValues(xs, alpha);
    var scan := EmaScan(xs[0], xs[1..], alpha);
    assert values == [xs[0]] + scan;
    EmaScanAt(xs[0], xs[1..], alpha, i - 1);
    assert values[i] == scan[i - 1];
    assert i - 1 > 0 ==> values[i - 1] == scan[i - 2];
  }

  /** EMA starts at the first price. */
  lemma EmaStart(data: seq<real>, w: nat)
    requires w >= 1 && |data| > 0
    ensures ExponentialMovingAverage(Lift(data), w)[0] == Some(data[0])
  {
    EmaOnPrices(data, w);
  }

  /** `ema[i] = alpha * data[i] + (1 - alpha) * ema[i - 1]` at one position `i >= 1`, with `alpha = 2 / (w + 1)`. */
  lemma EmaStep(data: seq<real>, w: nat, i: nat)
    requires w >= 1 && 1 <= i < |data|
    ensures ExponentialMovingAverage(Lift(data), w)[i].value
         == Alpha(w) * data[i] + (1.0 - Alpha(w)) * ExponentialMovingAverage(Lift(data), w)[i - 1].value
  {
    EmaOnPrices(data, w);
    EmaValuesAt(data, Alpha(w), i);
  }

  /**
   * EMA is defined at every position, starts at the first price, and follows
   * `ema[i] = alpha * data[i] + (1 - alpha) * ema[i - 1]` with `alpha = 2 / (w + 1)`.
   */
  lemma EmaRecurrence(data: seq<real>, w: nat)
    requires w >= 1
    ensures Defined(ExponentialMovingAverage(Lift(data), w))
    ensures |data| > 0 ==> ExponentialMovingAverage(Lift(data), w)[0] == Some(data[0])
    ensures forall i :: 1 <= i < |data| ==>
      ExponentialMovingAverage(Lift(data), w)[i].value
        == Alpha(w) * data[i] + (1.0 - Alpha(w)) * ExponentialMovingAverage(Lift(data), w)[i - 1].value
  {
    if |data| > 0 {
      EmaStart(data, w);
    }
    forall i | 1 <= i < |data|
      ensures ExponentialMovingAverage(Lift(data), w)[i].value
           == Alpha(w) * data[i] + (1.0 - Alpha(w)) * ExponentialMovingAverage(Lift(data), w)[i - 1].value
    {
      EmaStep(data, w, i);
    }
  }

  /** On prices, the EMA series is the exponential scan of the prices themselves. */
  lemma EmaOnPrices(data: seq<real>, w: nat)
    requires w >= 1
    ensures ExponentialMovingAverage(Lift(data), w) == Lift(EmaValues(data, Alpha(w)))
  {
    assert Values(Lift(data)) == data;
  }

  /** A mix of two values in `[lo, hi]` with weights `alpha` and `1 - alpha` stays in `[lo, hi]`. */
  lemma MixBounds(alpha: real, x: real, p: real, lo: real, hi: real)
    requires 0.0 <= alpha <= 1.0
    requires lo <= x <= hi && lo <= p <= hi
    ensures lo <= alpha * x + (1.0 - alpha) * p <= hi
  {
    ProductNonNegative(alpha, x - lo);
    ProductNonNegative(1.0 - alpha, p - lo);
    ProductNonNegative(alpha, hi - x);
    ProductNonNegative(1.0 - alpha, hi - p);
    assert alpha * x + (1.0 - alpha) * p - lo == alpha * (x - lo) + (1.0 - alpha) * (p - lo);
    assert hi - (alpha * x + (1.0 - alpha) * p) == alpha * (hi - x) + (1.0 - alpha) * (hi - p);
  }

  /** A scan that starts inside `[lo, hi]` over prices inside `[lo, hi]` stays inside. */
  lemma {:induction false} EmaScanBounds(prev: real, xs: seq<real>, alpha: real, lo: real, hi: real)
    requires 0.0 <= alpha <= 1.0 && lo <= prev <= hi
    requires forall k :: 0 <= k < |xs| ==> lo <= xs[k] <= hi
    ensures forall k :: 0 <= k < |xs| ==> lo <= EmaScan(prev, xs, alpha)[k] <= hi
    decreases |xs|
  {
    if xs != [] {
      var next := alpha * xs[0] + (1.0 - alpha) * prev;
      MixBounds(alpha, xs[0], prev, lo, hi);
      EmaScanBounds(next, xs[1..], alpha, lo, hi);
      var r := EmaScan(prev, xs, alpha);
      assert r == [next] + EmaScan(next, xs[1..], alpha);
    }
  }

  /** Every EMA value lies between bounds that every price respects. */
  lemma EmaBounds(data: seq<real>, w: nat, lo: real, hi: real)
    requires w >= 1
    requires forall k :: 0 <= k < |data| ==> lo <= data[k] <= hi
    ensures var r := ExponentialMovingAverage(Lift(data), w);
      forall i :: 0 <= i < |r| ==> lo <= r[i].value <= hi
  {
    EmaOnPrices(data, w);
    if data != [] {
      var alpha := Alpha(w);
      var values := EmaValues(data, alpha);
      EmaScanBounds(data[0], data[1..], alpha, lo, hi);
      assert values == [data[0]] + EmaScan(data[0], data[1..], alpha);
    }
  }

  // ---------------------------------------------------------------------------
  // WMA

  /**
   * WMA is undefined at the first `w - 1` positions and elsewhere is
   * `sum(k * data[i - w + k] for k in 1..w) / (w * (w + 1) / 2)`:
   * the newest price carries the largest weight.
   */
  lemma WmaOnPrices(data: seq<real>, w: nat, i: nat)
    requires 1 <= w && i < |data|
    ensures WeightedMovingAverage(Lift(data), w)[i]
         == if i < w - 1 then None
            else Some(Dot(data[i + 1 - w .. i + 1], Weights(w)) / (w * (w + 1) / 2) as real)
  {
    TrailingOnPrices(data, w, i);
    WeightsTotal(w);
    WeightsTotalPositive(w);
  }

  /** Every defined WMA value lies between bounds that every number of the series respects. */
  lemma WmaBounds(data: seq<Option<real>>, w: nat, lo: real, hi: real)
    requires w >= 1
    requires forall k :: 0 <= k < |data| && data[k].Some? ==> lo <= data[k].value <= hi
    ensures var r := WeightedMovingAverage(data, w);
      forall i :: 0 <= i < |r| && r[i].Some? ==> lo <= r[i].value <= hi
  {
    var r := WeightedMovingAverage(data, w);
    forall i | 0 <= i < |r| && r[i].Some? ensures lo <= r[i].value <= hi {
      WindowBounds(data, w, i, lo, hi);
      WeightedMeanBounds(Trailing(data, w, i).value, lo, hi);
    }
  }

  // ---------------------------------------------------------------------------
  // HMA

  /** The floor square root is the only root whose square is at most `n` and whose successor's square exceeds it. */
  lemma FloorSqrtUnique(n: nat, r: nat)
    requires r * r <= n < (r + 1) * (r + 1)
    ensures FloorSqrt(n) == r
  {
  }

  /**
   * For a window of at least 2 the Hull sub-windows are proper: the half length
   * is `w div 2`, between 1 and `w - 1`, and the root length is between 1 and `w - 1`.
   */
  lemma HmaSubWindows(w: nat)
    requires w >= 2
    ensures 1 <= HalfLength(w) < w && 2 * HalfLength(w) <= w <= 2 * HalfLength(w) + 1
    ensures 1 <= FloorSqrt(w) < w
  {
  }

  /**
   * On a series without NaN, HMA is undefined exactly at its first
   * `(w - 1) + (floor(sqrt(w)) - 1)` positions: the NaN of the full-window WMA
   * pass through the difference and widen by the root window.
   */
  lemma HmaWarmup(data: seq<real>, w: nat, i: nat)
    requires 2 <= w && i < |data|
    ensures HullMovingAverage(Lift(data), w)[i].None? <==> i < (w - 1) + (FloorSqrt(w) - 1)
  {
    HmaSubWindows(w);
    var h, s := HalfLength(w), FloorSqrt(w);
    var a := WeightedMovingAverage(Lift(data), h);
    var b := WeightedMovingAverage(Lift(data), w);
    var d := HullDifference(a, b);
    assert forall j :: 0 <= j < |d| ==> (d[j].Some? <==> j >= w - 1) by {
      forall j | 0 <= j < |d| ensures d[j].Some? <==> j >= w - 1 {
        WmaOnPrices(data, h, j);
        WmaOnPrices(data, w, j);
      }
    }
    var t := Trailing(d, s, i);
    TrailingSpec(d, s, i);
    if i + 1 >= s && i + 1 - s < w - 1 {
      assert !d[i + 1 - s].Some?;
    }
    assert t.Some? <==> i >= (w - 1) + (s - 1);
  }

  /** On a constant series every defined Hull value is that constant. */
  lemma HmaConstant(data: seq<real>, w: nat, c: real)
    requires w >= 2
    requires forall k :: 0 <= k < |data| ==> data[k] == c
    ensures var r := HullMovingAverage(Lift(data), w);
      forall i :: 0 <= i < |r| && r[i].Some? ==> r[i].value == c
  {
    HmaSubWindows(w);
    var h, s := HalfLength(w), FloorSqrt(w);
    var a := WeightedMovingAverage(Lift(data), h);
    var b := WeightedMovingAverage(Lift(data), w);
    WmaBounds(Lift(data), h, c, c);
    WmaBounds(Lift(data), w, c, c);
    var d := HullDifference(a, b);
    assert forall k :: 0 <= k < |d| && d[k].Some? ==> c <= d[k].value <= c;
    WmaBounds(d, s, c, c);
  }

  // ---------------------------------------------------------------------------
  // The engine as a whole

  /** Whatever the method, a constant price series is a fixed point at every defined position. */
  lemma ConstantSeriesFixedPoint(data: seq<real>, window: int, name: string, c: real)
    requires IsMethodName(name) ==> window >= 1
    requires name == "hma" ==> window >= 2
    requires forall k :: 0 <= k < |data| ==> data[k] == c
    ensures var r := Calculate(Lift(data), window, name);
      r.Ok? ==> forall i :: 0 <= i < |r.value| && r.value[i].Some? ==> r.value[i].value == c
  {
    match ParseMethod(name)
    case Some(SMA) => SmaBounds(Lift(data), window, c, c);
    case Some(EMA) => EmaBounds(data, window, c, c);
    case Some(WMA) => WmaBounds(Lift(data), window, c, c);
    case Some(HMA) => HmaConstant(data, window, c);
    case None =>
  }
}
