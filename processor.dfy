/**
 * `process_stock_data`: applies the moving-average engine to the `Close`
 * column of a caller's table, writes the result into that same table under
 * the name `METHOD_window`, and returns it; any exception becomes an empty table.
 */
module Processor {
  import opened Wrappers
  import opened Series
  import opened MovingAverage
  import opened ColumnNaming
  import MovingAverageProperties

  /** The column the moving average is computed over. */
  const PriceColumn := "Close"

  /** The columns of a table, each a series of one cell per row. */
  type Columns = map<string, seq<Option<real>>>

  /** The exceptions the processor catches: a `KeyError` for a missing column, or the engine's `ValueError`. */
  datatype Failure = MissingColumn(column: string) | CalculationFailed(error: Error)

  /** A pandas DataFrame reduced to its named columns and its row count. */
  class DataFrame {
    var columns: Columns
    var rows: nat

    /** Every column has one cell per row. */
    ghost predicate Valid()
      reads this
    {
      forall c :: c in columns ==> |columns[c]| == rows
    }

    /** `pd.DataFrame()`: no columns and no rows. */
    constructor Empty()
      ensures Valid() && columns == map[] && rows == 0
    {
      columns := map[];
      rows := 0;
    }
  }

  /**
   * The columns of the table after `stock_data[name] = calculate_moving_average(
   * stock_data["Close"], window_size, ma_method)`, or the exception its
   * right-hand side raises. The `Close` column is looked up before the engine
   * runs, so a missing column is reported even for an unknown method.
   */
  function Enrich(columns: Columns, windowSize: int, maMethod: string): (r: Result<Columns, Failure>)
    requires PriceColumn in columns && IsMethodName(maMethod) ==> windowSize >= 1
    requires PriceColumn in columns && maMethod == "hma" ==> windowSize >= 2
    requires PriceColumn in columns && maMethod == "ema" ==> Defined(columns[PriceColumn])
    ensures r.Ok? <==> PriceColumn in columns && IsMethodName(maMethod)
    ensures PriceColumn !in columns ==> r == Err(MissingColumn(PriceColumn))
    ensures PriceColumn in columns && !IsMethodName(maMethod) ==> r == Err(CalculationFailed(InvalidMethod(maMethod)))
    ensures r.Ok? ==> r.value.Keys == columns.Keys + {ColumnName(maMethod, windowSize)}
    ensures r.Ok? ==> forall c :: c in columns && c != ColumnName(maMethod, windowSize) ==> r.value[c] == columns[c]
    ensures r.Ok? ==> r.value[ColumnName(maMethod, windowSize)] == Calculate(columns[PriceColumn], windowSize, maMethod).value
  {
    if PriceColumn !in columns then Err(MissingColumn(PriceColumn))
    else
      match Calculate(columns[PriceColumn], windowSize, maMethod)
      case Err(e) => Err(CalculationFailed(e))
      case Ok(average) => Ok(columns[ColumnName(maMethod, windowSize) := average])
  }

  /** The new column is never the price column, so the prices are kept as they were. */
  lemma PriceColumnKept(columns: Columns, windowSize: int, maMethod: string)
    requires PriceColumn in columns && IsMethodName(maMethod) ==> windowSize >= 1
    requires PriceColumn in columns && maMethod == "hma" ==> windowSize >= 2
    requires PriceColumn in columns && maMethod == "ema" ==> Defined(columns[PriceColumn])
    ensures var r := Enrich(columns, windowSize, maMethod);
      r.Ok? ==> PriceColumn in r.value && r.value[PriceColumn] == columns[PriceColumn]
  {
  }

  /** Adding the moving average keeps every column one cell per row. */
  lemma EnrichKeepsRows(columns: Columns, rows: nat, windowSize: int, maMethod: string)
    requires PriceColumn in columns && IsMethodName(maMethod) ==> windowSize >= 1
    requires PriceColumn in columns && maMethod == "hma" ==> windowSize >= 2
    requires PriceColumn in columns && maMethod == "ema" ==> Defined(columns[PriceColumn])
    requires forall c :: c in columns ==> |columns[c]| == rows
    ensures var r := Enrich(columns, windowSize, maMethod);
      r.Ok? ==> forall c :: c in r.value ==> |r.value[c]| == rows
  {
  }

  /**
   * `process_stock_data(stock_data, window_size, ma_method)`. On success the
   * caller's table itself is returned with exactly one column added or
   * overwritten; on failure the caller's table is left untouched and a new
   * empty table is returned. Nothing escapes as an exception.
   */
  method ProcessStockData(stockData: DataFrame, windowSize: int, maMethod: string) returns (result: DataFrame)
    requires stockData.Valid()
    requires PriceColumn in stockData.columns && IsMethodName(maMethod) ==> windowSize >= 1
    requires PriceColumn in stockData.columns && maMethod == "hma" ==> windowSize >= 2
    requires PriceColumn in stockData.columns && maMethod == "ema" ==> Defined(stockData.columns[PriceColumn])
    modifies stockData
    ensures result.Valid()
    ensures var outcome := Enrich(old(stockData.columns), windowSize, maMethod);
      && (outcome.Ok? ==> result == stockData && stockData.columns == outcome.value && stockData.rows == old(stockData.rows))
      && (outcome.Err? ==> fresh(result) && result.columns == map[] && result.rows == 0 && unchanged(stockData))
  {
    if PriceColumn !in stockData.columns {
      result := new DataFrame.Empty();
      return;
    }
    var average := Calculate(stockData.columns[PriceColumn], windowSize, maMethod);
    if average.Err? {
      result := new DataFrame.Empty();
      return;
    }
    EnrichKeepsRows(stockData.columns, stockData.rows, windowSize, maMethod);
    stockData.columns := stockData.columns[ColumnName(maMethod, windowSize) := average.value];
    result := stockData;
  }

  /** A 3-period SMA over a window holding `a`, `b`, `c` is their mean. */
  lemma SmaOverThree(data: seq<real>, last: nat, a: real, b: real, c: real)
    requires 2 <= last < |data|
    requires data[last - 2] == a && data[last - 1] == b && data[last] == c
    ensures SimpleMovingAverage(Lift(data), 3)[last] == Some((a + b + c) / 3.0)
  {
    var window := data[last - 2 .. last + 1];
    MovingAverageProperties.SmaWindow(data, 3, last - 2, last, last + 1);
    assert window == [a, b, c];
    assert window[..2] == [a, b];
    assert window[..2][..1] == [a];
    assert Sum(window[..2][..1]) == a;
    assert Sum(window[..2]) == a + b;
    assert Sum(window) == a + b + c;
    assert Mean(window) == (a + b + c) / 3.0;
  }

  /** The closing prices of the scenario in the processor's test. */
  const ScenarioCloses: seq<real> := [100.0, 102.0, 104.0, 106.0, 108.0]

  /** The 3-period SMA of the scenario's closes is NaN, NaN, 102, 104, 106. */
  lemma ScenarioSma()
    ensures SimpleMovingAverage(Lift(ScenarioCloses), 3) == [None, None, Some(102.0), Some(104.0), Some(106.0)]
  {
    var data := ScenarioCloses;
    MovingAverageProperties.SmaOnPrices(data, 3, 0);
    MovingAverageProperties.SmaOnPrices(data, 3, 1);
    SmaOverThree(data, 2, 100.0, 102.0, 104.0);
    SmaOverThree(data, 3, 102.0, 104.0, 106.0);
    SmaOverThree(data, 4, 104.0, 106.0, 108.0);
  }

  /**
   * A table whose `Close` prices are 100, 102, 104, 106, 108 gains a column
   * `SMA_3` holding NaN, NaN, 102, 104, 106 when asked for a 3-period SMA.
   */
  lemma SmaColumnScenario()
    ensures var r := Enrich(map[PriceColumn := Lift(ScenarioCloses)], 3, "sma");
      && r.Ok?
      && "SMA_3" in r.value
      && r.value["SMA_3"] == [None, None, Some(102.0), Some(104.0), Some(106.0)]
  {
    SmaColumnName();
    ScenarioSma();
  }
}
