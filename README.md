# Moving-average engine and stock-data processor

This project models the analytics core of a stock-price microservice in Dafny.
The core has two parts:

- **The moving-average engine.** `calculate_moving_average(data, window, method)` maps a price series to a derived series of the same length. It supports four methods:
  - `sma`: trailing mean;
  - `ema`: exponential recurrence with `adjust=False` and `alpha = 2 / (window + 1)`;
  - `wma`: linear weights `1..window`;
  - `hma`: Hull average, `WMA(2 * WMA(x, window div 2) - WMA(x, window), floor(sqrt(window)))`.

  Any other method name raises `ValueError`.
- **The processor.** `process_stock_data(stock_data, window_size, ma_method)` runs the engine on the table's `Close` column. It writes the result into the caller's own table, under the column `METHOD_window` (for example `SMA_3`), and returns that table. Any exception is caught and turned into an empty table.

Modelling choices:

- A series is a `seq<Option<real>>`. `None` stands for pandas' NaN.
- Arithmetic is exact `real` arithmetic, not IEEE-754.
- Rolling windows follow pandas' default `min_periods == window`: a position is defined exactly when a full window ends there and no cell in that window is NaN. This is how the NaN produced by the inner WMAs of the Hull average carry into its outer WMA.
- The processor's table is a class `DataFrame` with a map from column names to series and a row count. `ProcessStockData` updates that object in place.
- A pure function, `Enrich`, states what the column map becomes. It also says which exception the assignment's right-hand side raises. The right-hand side is evaluated before the assignment, so on failure the caller's table is unchanged.

Modules:

| file | module | contents |
|---|---|---|
| `wrappers.dfy` | `Wrappers` | `Option` and `Result` |
| `series.dfy` | `Series` | series cells, rolling windows, sums, dot product, weights |
| `moving_average.dfy` | `MovingAverage` | the four methods and `Calculate` |
| `moving_average_properties.dfy` | `MovingAverageProperties` | warm-up gaps, closed forms, recurrence, bounds, Hull sub-windows |
| `column_naming.dfy` | `ColumnNaming` | `str.upper`, `str(int)`, the column-name rule |
| `processor.dfy` | `Processor` | the table class, `Enrich`, `ProcessStockData` |

Behaviour of the code that the model keeps:

- The engine has exactly four methods: `sma`, `ema`, `wma` and `hma`.
- An oversized window is not clamped. SMA, WMA and HMA are then NaN everywhere.
- The Hull sub-windows `window div 2` and `floor(sqrt(window))` are used as computed. For a window of at least 2 both are at least 1 (`HmaSubWindows`).
- The method name is checked only by the engine's dispatch. An unknown name raises `ValueError` whatever the window, because no rolling transform runs first.
- The processor returns either the caller's own table or a new empty one.

## Model

| member | source | states |
|---|---|---|
| `Series.TrailingSpec` | src/app/moving_avg.py:48 | the rolling window ending at position `i` exists exactly when at least `w` positions end at `i` and none of them is NaN; it holds the `w` values `xs[i-w+1..i]` oldest first |
| `Series.WeightsTotal` | src/app/moving_avg.py:54-55 | `weights.sum()` for `weights = 1..w` is `w * (w + 1) / 2` |
| `MovingAverage.ParseMethod` | src/app/moving_avg.py:47-65 | a method is selected exactly for the names `sma`, `ema`, `wma`, `hma`, and the selected method carries that name; nothing is a default |
| `MovingAverage.Calculate` | src/app/moving_avg.py:23-65 | the result is a series exactly when the name is one of the four; otherwise it is the `ValueError` for that name, at every window, including windows below 1; a result has the length of the input |
| `MovingAverage.SimpleMovingAverage` | src/app/moving_avg.py:47-48 | the SMA series has the length of the input |
| `MovingAverage.Alpha` | src/app/moving_avg.py:51 | the smoothing factor `2 / (span + 1)` lies in `(0, 1]` for every window of at least 1 |
| `MovingAverage.ExponentialMovingAverage` | src/app/moving_avg.py:50-51 | the EMA series has the length of the input and has no NaN at any position |
| `MovingAverage.WeightedMovingAverage` | src/app/moving_avg.py:53-55 | the WMA series has the length of the input |
| `MovingAverage.FloorSqrt` | src/app/moving_avg.py:59 | `sqrt_length` is the integer root `r` with `r * r <= window < (r + 1) * (r + 1)` |
| `MovingAverage.HullMovingAverage` | src/app/moving_avg.py:57-63 | the nested WMA composition keeps the length of the input |
| `MovingAverageProperties.SmaOnPrices` | src/app/moving_avg.py:47-48 | on prices without NaN, SMA at `i` is NaN for `i < w - 1` (so everywhere when `w` exceeds the length) and otherwise the mean of `data[i-w+1..i]` |
| `MovingAverageProperties.SmaSlide` | src/app/moving_avg.py:48 | from position `w` on, the SMA at `i` is the mean of the previous window, which `SmaOnPrices` shows is the SMA at `i - 1`, plus `(data[i] - data[i-w]) / w` |
| `MovingAverageProperties.SmaBounds` | src/app/moving_avg.py:48 | every defined SMA value lies within any bounds that all numbers of the input respect, NaN cells included |
| `MovingAverageProperties.EmaScanAt` | src/app/moving_avg.py:51 | each step of the forward scan is `alpha * x[j] + (1 - alpha) * previous` |
| `MovingAverageProperties.EmaRecurrence` | src/app/moving_avg.py:50-51 | EMA is defined everywhere, `ema[0] = data[0]`, and `ema[i] = alpha * data[i] + (1 - alpha) * ema[i-1]` with `alpha = 2 / (w + 1)` |
| `MovingAverageProperties.EmaStep` | src/app/moving_avg.py:51 | at each position `i >= 1` of a price series, `ema[i] = alpha * data[i] + (1 - alpha) * ema[i-1]` with `alpha = 2 / (w + 1)` |
| `MovingAverageProperties.EmaBounds` | src/app/moving_avg.py:51 | every EMA value lies within any bounds that all prices respect |
| `MovingAverageProperties.WmaOnPrices` | src/app/moving_avg.py:53-55 | on prices without NaN, WMA at `i` is NaN for `i < w - 1` and otherwise `sum(k * data[i-w+k], k = 1..w) / (w * (w + 1) / 2)`, so the newest price weighs most |
| `MovingAverageProperties.WmaBounds` | src/app/moving_avg.py:53-55 | every defined WMA value lies within any bounds that all numbers of the input respect, NaN cells included |
| `MovingAverageProperties.FloorSqrtUnique` | src/app/moving_avg.py:59 | only one natural number is the floor square root of `n`: the one `FloorSqrt` returns |
| `MovingAverageProperties.HmaSubWindows` | src/app/moving_avg.py:58-59 | for `window >= 2`: `half_length = window div 2` lies in `[1, window - 1]`, and `sqrt_length` lies in `[1, window - 1]` |
| `MovingAverageProperties.HmaWarmup` | src/app/moving_avg.py:60-63 | on prices without NaN, HMA at `i` is NaN exactly when `i < (window - 1) + (sqrt_length - 1)`: the full-window NaN pass through `2 * wma_half - wma_full` and the outer WMA widens them |
| `MovingAverageProperties.HmaConstant` | src/app/moving_avg.py:57-63 | on a constant series every defined HMA value is that constant |
| `MovingAverageProperties.ConstantSeriesFixedPoint` | src/app/moving_avg.py:47-63 | for every method, a constant price series yields that constant at every defined position |
| `ColumnNaming.Decimal` | src/app/processor.py:26 | `str(window_size)` is a non-empty string of decimal digits with no leading zero |
| `ColumnNaming.DecimalRoundTrip` | src/app/processor.py:26 | reading the decimal string of a window back gives the window |
| `ColumnNaming.Upper` | src/app/processor.py:26 | `ma_method.upper()` has the method's length and upper-cases each ASCII letter |
| `ColumnNaming.ColumnName` | src/app/processor.py:26 | the column name is the upper-cased method, then `_` at the method's length, then the window's decimal digits |
| `ColumnNaming.SmaColumnName` | tests/test_processor.py:21-36 | method `sma` with window 3 names the column `SMA_3` |
| `ColumnNaming.ColumnNameInjective` | src/app/processor.py:26-27 | two requests with known method names write to the same column only when method and window are equal |
| `Processor.Enrich` | src/app/processor.py:25-29 | the update succeeds exactly when `Close` is present and the method is known. A missing `Close` is the `KeyError`, even for an unknown method, at every window. A present `Close` with an unknown method is the `ValueError`. On success the keys are the old keys plus the new name, every other column is unchanged, and the new column is the engine's output for `Close` |
| `Processor.PriceColumnKept` | src/app/processor.py:27-29 | the `Close` column itself is never overwritten |
| `Processor.EnrichKeepsRows` | src/app/processor.py:27 | after the update every column still has one cell per row |
| `Processor.ProcessStockData` | src/app/processor.py:11-34 | on success it returns the caller's own table, whose columns are now `Enrich`'s result and whose row count is unchanged. On failure the caller's table is untouched and a fresh empty table is returned. No exception escapes |
| `Processor.DataFrame.Empty` | src/app/processor.py:34 | `pd.DataFrame()` has no columns and no rows |
| `Processor.SmaOverThree` | src/app/moving_avg.py:48 | a 3-period SMA whose window holds the prices `a`, `b`, `c` is `(a + b + c) / 3` |
| `Processor.ScenarioSma` | tests/test_processor.py:21-26 | the 3-period SMA of the closes 100, 102, 104, 106, 108 is NaN, NaN, 102, 104, 106 |
| `Processor.SmaColumnScenario` | tests/test_processor.py:21-36 | a table with `Close` = 100, 102, 104, 106, 108 gains a column `SMA_3` = NaN, NaN, 102, 104, 106 |

## Left out

- `MovingAverage.Calculate`: for the four known methods, a window below 1 is excluded by a precondition. So is `hma` with window 1: its `half_length` is 0. What pandas does with such a rolling window belongs to the library, not to this code. An unknown method name is modelled for every window, and gives the `ValueError`.
- `Processor.Enrich`: it carries the same window preconditions, but only when `Close` is present and the method is known. A missing `Close` or an unknown method is modelled for every window.
- `MovingAverage.ExponentialMovingAverage`: the input must contain no NaN (a precondition). How pandas' `ewm` handles NaN inside the series belongs to the library. SMA, WMA and HMA do accept NaN in the input.
- `Processor.ProcessStockData`: it carries `Enrich`'s preconditions. For `ema` it also requires a `Close` column without NaN.
- Floating point: values are exact reals. `np.sqrt` is replaced by an exact integer floor square root. `int(window / 2)` is replaced by integer division, which agrees for positive windows.
- `ColumnNaming.Upper`: only ASCII letters are upper-cased. Full Unicode case mapping is not modelled. The name is only used when the method is one of the four ASCII names.
- Table contents: columns are numeric series. Non-numeric columns, dtypes and index alignment of the column assignment are not modelled. The assigned series comes from the same table, so it shares its index.
- Argument types: windows are integers and method names are strings. A method that is not a string is not modelled; it raises inside the `try` and gives an empty table. A non-integer window is not modelled either. For `ema`, `ewm(span=2.5, adjust=False)` accepts it and the processor writes a column such as `EMA_2.5`. The rolling methods (`sma`, `wma`, `hma`) raise for it, so the processor returns an empty table.
- Default arguments: `method="sma"` (`src/app/moving_avg.py:26`) and `ma_method="sma"` (`src/app/processor.py:12`) are not modelled. Every call in the model names its method, and omitting it is the same as passing `"sma"`.
- Column order: pandas appends a new column last and keeps an overwritten column in its place. The model's columns are a `map`, which has no order, so this order is not captured.
- Logging (`src/app/moving_avg.py:45`, `src/app/processor.py:30,33`) is output only and is not modelled.
- The logger setup itself is not modelled either. `src/app/logger.py` defines `setup_logger()` with no parameters, but `src/app/moving_avg.py:20` calls it with an argument.
- Queue consumption and publishing (`src/app/queue_handler.py`, `src/app/queue_sender.py`), JSON output (`src/app/output_handler.py`), logger setup (`src/app/logger.py`) and the entry point (`src/app/main.py`) are network and I/O plumbing. They are not part of this model.
