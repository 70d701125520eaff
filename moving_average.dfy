/**
 * The moving-average engine: `calculate_moving_average` maps a price series,
 * a window and a method name to a derived series of the same length, whose
 * warm-up positions are NaN (`None`).
 */
module MovingAverage {
  import opened Wrappers
  import opened Series

  /** The methods the engine knows. */
  datatype Method = SMA | EMA | WMA | HMA

  /** The name a caller passes to select a method. */
  function Name(m: Method): string
  {
    match m
    case SMA => "sma"
    case EMA => "ema"
    case WMA => "wma"
    case HMA => "hma"
  }

  /** The method a name selects; there is no default for an unknown name. */
  function ParseMethod(name: string): (r: Option<Method>)
    ensures r.Some? ==> Name(r.value) == name
    ensures r.Some? <==> IsMethodName(name)
  {
    if name == "sma" then Some(SMA)
    else if name == "ema" then Some(EMA)
    else if name == "wma" then Some(WMA)
    else if name == "hma" then Some(HMA)
    else None
  }

  /** The names the engine accepts. */
  predicate IsMethodName(name: string)
  {
    name == "sma" || name == "ema" || name == "wma" || name == "hma"
  }

  /** The `ValueError` raised for an unknown method name. */
  datatype Error = InvalidMethod(name: string)

  /** `data.rolling(window=w).mean()`: the mean of each full window without NaN. */
  function SimpleMovingAverage(data: seq<Option<real>>, w: nat): (r: seq<Option<real>>)
    requires w >= 1
    ensures |r| == |data|
  {
    seq(|data|, i requires 0 <= i < |data| =>
      match Trailing(data, w, i)
      case None => None
      case Some(window) => Some(Mean(window)))
  }

  /** The smoothing factor `2 / (span + 1)` of `ewm(span=w)`. */
  function Alpha(w: nat): (a: real)
    requires w >= 1
    ensures 0.0 < a <= 1.0
  {
    2.0 / (w + 1) as real
  }

  /** The exponential recurrence carried forward from the previous average `prev`. */
  function EmaScan(prev: real, xs: seq<real>, alpha: real): (r: seq<real>)
    ensures |r| == |xs|
    decreases |xs|
  {
    if xs == [] then []
    else
      var next := alpha * xs[0] + (1.0 - alpha) * prev;
      [next] + EmaScan(next, xs[1..], alpha)
  }

  /** `ewm(alpha, adjust=False).mean()` of a series without NaN: seeded with its first value. */
  function EmaValues(xs: seq<real>, alpha: real): (r: seq<real>)
    ensures |r| == |xs|
  {
    if xs == [] then [] else [xs[0]] + EmaScan(xs[0], xs[1..], alpha)
  }

  /** `data.ewm(span=w, adjust=False).mean()`: defined at every position. */
  function ExponentialMovingAverage(data: seq<Option<real>>, w: nat): (r: seq<Option<real>>)
    requires w >= 1
    requires Defined(data)
    ensures |r| == |data|
    ensures Defined(r)
  {
    Lift(EmaValues(Values(data), Alpha(w)))
  }

  /** `data.rolling(w).apply(np.dot(x, weights) / weights.sum())` with `weights = 1..w`. */
  function WeightedMovingAverage(data: seq<Option<real>>, w: nat): (r: seq<Option<real>>)
    requires w >= 1
    ensures |r| == |data|
  {
    seq(|data|, i requires 0 <= i < |data| =>
      match Trailing(data, w, i)
      case None => None
      case Some(window) => Some(WeightedMean(window)))
  }

  /** `int(window / 2)`: truncating division, which is floor division for a positive window. */
  function HalfLength(w: nat): nat
  {
    w / 2
  }

  /** The integer square root, found by counting up from `k`. */
  function SqrtFrom(n: nat, k: nat): (r: nat)
    requires k * k <= n
    ensures r * r <= n < (r + 1) * (r + 1)
    decreases n - k
  {
    if n < (k + 1) * (k + 1) then k
    else
      assert k < n by {
        assert k + 1 <= (k + 1) * (k + 1);
      }
      SqrtFrom(n, k + 1)
  }

  /** `int(np.sqrt(window))`, the largest root whose square does not exceed the window. */
  function FloorSqrt(n: nat): (r: nat)
    ensures r * r <= n < (r + 1) * (r + 1)
  {
    SqrtFrom(n, 0)
  }

  /** `2 * wma_half - wma_full` position by position; NaN on either side gives NaN. */
  function HullDifference(half: seq<Option<real>>, full: seq<Option<real>>): (r: seq<Option<real>>)
    requires |half| == |full|
    ensures |r| == |half|
  {
    seq(|half|, i requires 0 <= i < |half| =>
      if half[i].Some? && full[i].Some? then Some(2.0 * half[i].value - full[i].value) else None)
  }

  /** The Hull average: the WMA over `floor(sqrt(w))` of `2 * WMA(w / 2) - WMA(w)`. */
  function HullMovingAverage(data: seq<Option<real>>, w: nat): (r: seq<Option<real>>)
    requires w >= 2
    ensures |r| == |data|
  {
    var halfLength := HalfLength(w);
    var sqrtLength := FloorSqrt(w);
    var wmaHalf := WeightedMovingAverage(data, halfLength);
    var wmaFull := WeightedMovingAverage(data, w);
    WeightedMovingAverage(HullDifference(wmaHalf, wmaFull), sqrtLength)
  }

  /**
   * `calculate_moving_average(data, window, method)`. An unknown method name
   * is the `ValueError` whatever the window, since no rolling transform runs;
   * every known method keeps the length of the series.
   */
  function Calculate(data: seq<Option<real>>, window: int, name: string): (r: Result<seq<Option<real>>, Error>)
    requires IsMethodName(name) ==> window >= 1
    requires name == "hma" ==> window >= 2
    requires name == "ema" ==> Defined(data)
    ensures r.Ok? <==> IsMethodName(name)
    ensures r.Err? ==> r.error == InvalidMethod(name)
    ensures r.Ok? ==> |r.value| == |data|
  {
    match ParseMethod(name)
    case Some(SMA) => Ok(SimpleMovingAverage(data, window))
    case Some(EMA) => Ok(ExponentialMovingAverage(data, window))
    case Some(WMA) => Ok(WeightedMovingAverage(data, window))
    case Some(HMA) => Ok(HullMovingAverage(data, window))
    case None => Err(InvalidMethod(name))
  }
}
