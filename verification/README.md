# ETH/USDT 1-minute candles: acquisition and analysis, modelled in Dafny

The repository fetches recent one-minute ETH candles and publishes indicators and
price forecasts from them. It asks Binance for up to 1000; the Coinbase fallback sets
no limit. This project models its two computational parts.

- **Acquisition** (`scripts/fetch_eth.py`). Binance's klines are turned into a table.
  Their price and volume strings are coerced to numbers and every row is tagged
  `binance`. If anything in the Binance fetch fails, Coinbase's candles are used
  instead. They are checked to be a non-empty list, sorted by time, given an
  `open_time` and a `close_time`, padded with missing columns and tagged `coinbase`.
  The run then writes the table and a meta record with `rows` and `source`.
- **Analysis** (`scripts/analyze_and_publish.py`). This covers EMA (pandas
  `ewm(adjust=False)`), RSI (a plain rolling mean of gains over losses), MACD 12/26/9,
  ATR (a rolling mean of the true range), and the drift/volatility estimator
  `drift_vol`. It also covers the log-normal one-sigma projection `project_price`,
  the choice of estimate per time scale (1-minute, 15-minute, hourly), and the fixed
  six-row horizon table.

Numbers are `real`. A pandas NaN is `None` in a column `seq<Option<real>>`. A Python
exception is the `Err` side of a `Result`. `math.log`, `math.exp` and the square
root are parameters (`Numerics.Math`). Each lemma that needs a law of them (exp is
monotone, exp inverts log, the square root is non-negative and squares back)
states it as a precondition. Each HTTP request is an input outcome: the decoded
payload, or a failure. Timestamps are integer milliseconds since the epoch.

Modules: `Wrappers` (Option, Result), `Series` (diff, shift, rolling mean, dropna,
row-wise max), `Ewm` (the EMA recurrence and pandas' running `ewm` state),
`Indicators` (RSI, MACD, ATR), `Numerics` (the math parameters and analysis
errors), `Drift` (`drift_vol`), `Projection` (`project_price`), `Forecast` (the
scales and the horizon table), `Candles` (the two provider tables) and
`Acquisition` (the fallback and the written result).

Behaviour of the code that the model keeps, although a reader might expect otherwise:

- ATR keeps row 0. Its true range is abs(high − low), because `max(axis=1)` skips the
  missing previous close, and it enters the first rolling window.
- The 15-minute and hourly estimates are computed only with at least 60 and 240 rows,
  although 15 and 60 rows would already give a non-empty rolling mean. Below those
  counts the 1-minute estimate is reused.
- There are exactly two providers. When both fail, only Coinbase's exception escapes.
- An empty Binance payload is accepted and written as an empty table. Only Coinbase's
  payload is checked for emptiness.
- The Binance table keeps the `ignore` column and Binance's column order. The
  Coinbase table has 12 columns, without `ignore`.
- The meta record names the provider under the key `source`.
- Candles come only from the providers. Nothing rebuilds candles from trades.
- A timestamp outside pandas' datetime64[ns] range makes the conversion raise. For
  Binance that is a fallback to Coinbase, and for Coinbase it is an error of the run.
- `math.exp` raises OverflowError when an exponent of `project_price` exceeds
  ln of the largest double, `ExpLimit`. That error ends the forecast like a math
  domain error.

## Model

| member | source | states |
|---|---|---|
| Ewm.Alpha | scripts/analyze_and_publish.py:11 | The smoothing factor of `ewm(span)` lies in (0, 1], and it is 1 exactly for span 1. |
| Ewm.EmaDefinition | scripts/analyze_and_publish.py:11 | `ema` keeps the input's length, starts at s[0], and satisfies EMA[i] = α·s[i] + (1−α)·EMA[i−1] with α = 2/(span+1). |
| Ewm.Ema | scripts/analyze_and_publish.py:11 | `ema(s, span)` has the input's length; its values are stated by Ewm.EmaDefinition. |
| Ewm.EwmMean | scripts/analyze_and_publish.py:11 | pandas' `ewm(adjust=False).mean()` over a column with missing values has the input's length; Ewm.EwmOfDefined ties it to the recurrence. |
| Ewm.EmaRecurrence | scripts/analyze_and_publish.py:11 | The same three facts for any smoothing factor. |
| Ewm.EmaPrefix | scripts/analyze_and_publish.py:11 | The EMA of a prefix is the prefix of the EMA: no entry depends on later rows. |
| Ewm.EmaBounded | scripts/analyze_and_publish.py:11 | Bounds on the inputs bound every EMA entry, since each is a convex combination of inputs. |
| Ewm.EmaOfConstant | scripts/analyze_and_publish.py:11 | The EMA of a constant column is that constant. |
| Ewm.EwmStep | scripts/analyze_and_publish.py:11 | One row of pandas' running state keeps the old weight non-negative, and the mean is defined once any row has been observed. |
| Ewm.EwmFoldOfDefined | scripts/analyze_and_publish.py:11 | On a column with no missing value, pandas' state after the last row holds the last EMA entry with old weight 1. |
| Ewm.EwmOfDefined | scripts/analyze_and_publish.py:11 | On a column with no missing value, pandas' `ewm(adjust=False).mean()` equals the EMA recurrence. |
| Ewm.EwmLeadingMissing | scripts/analyze_and_publish.py:34-35 | A leading missing value stays missing and shifts the rest of pandas' result by one row, as for the missing first return. |
| Ewm.EwmFoldDefinedIff | scripts/analyze_and_publish.py:35 | pandas' mean is defined exactly when some earlier or current row is observed. |
| Ewm.ComputeEma | scripts/analyze_and_publish.py:11 | Running pandas' `(weighted, old_wt)` update over a column with no missing value, reading the mean after each row, yields the EMA recurrence. |
| Series.MaxSkipMissing | scripts/analyze_and_publish.py:30 | The row-wise max skipping missing values is missing only when every entry is, and is otherwise a defined entry no smaller than any other. |
| Series.RollingMeanAfterLeadingMissing | scripts/analyze_and_publish.py:14-17 | For a column whose first entry alone is missing, as a first difference is, the rolling mean is defined exactly from row w on. |
| Series.RollingMeanBounds | scripts/analyze_and_publish.py:31 | A rolling mean lies within any bounds of the entries it averages. |
| Series.RollingMeanNonNegative | scripts/analyze_and_publish.py:17 | Non-negative entries give non-negative rolling means. |
| Series.RollingMeanOfDefined | scripts/analyze_and_publish.py:86 | On a fully defined column, `rolling(w).mean()` is w−1 missing rows followed by the mean of each window, or all missing with fewer than w rows. |
| Series.DropMissingAfterMissing | scripts/analyze_and_publish.py:86 | `dropna()` removes a leading run of missing values and keeps the rest in order. |
| Series.SumZeroIff | scripts/analyze_and_publish.py:17 | A sum of non-negative terms is zero exactly when every term is zero. |
| Indicators.GainLossSplit | scripts/analyze_and_publish.py:14-16 | `up` and `down` exist from row 1 on, are non-negative, at most one is non-zero, and up − down is the close-to-close difference. |
| Indicators.Rsi | scripts/analyze_and_publish.py:13-18 | `rsi(close, period)` has one entry per close; its range and definedness are stated by Indicators.RsiRange and Indicators.RsiDefinedIff. |
| Indicators.GainLossNonNegative | scripts/analyze_and_publish.py:15-17 | The average gain and the average loss are never negative. |
| Indicators.RsiUndefinedBeforePeriod | scripts/analyze_and_publish.py:14-18 | RSI is missing at every row before `period`, because `diff[0]` is missing. |
| Indicators.RsiRange | scripts/analyze_and_publish.py:17-18 | Where RSI is defined it lies in [0, 100] and equals 100·gain/(gain + loss). It is below 100 exactly when the average loss is positive. |
| Indicators.RsiPointRange | scripts/analyze_and_publish.py:17-18 | The same range and identity for one pair of non-negative averages, including pandas' division by a zero loss. |
| Indicators.RsiWindow | scripts/analyze_and_publish.py:14-17 | From row `period` on, the two averages are the means of the window's rises and falls. |
| Indicators.RsiDefinedIff | scripts/analyze_and_publish.py:14-18 | RSI is defined exactly at rows from `period` on whose window of closes moves; a flat window gives 0/0, which is NaN. |
| Indicators.MacdShape | scripts/analyze_and_publish.py:20-25 | line = EMA(fast) − EMA(slow) and hist = line − signal pointwise, signal = EMA(line, signal span), all three have the input's length and all start at 0. |
| Indicators.MacdOf | scripts/analyze_and_publish.py:20-25 | `macd(close, fast, slow, signal)` returns three columns of the input's length. |
| Indicators.DefaultMacd | scripts/analyze_and_publish.py:20-25 | `macd(close)` with the defaults 12, 26, 9: line = EMA12 − EMA26, signal = EMA9 of the line, hist = line − signal, all of the input's length. |
| Indicators.MacdOfConstant | scripts/analyze_and_publish.py:20-25 | A flat price gives a MACD line, signal and histogram that are all zero. |
| Indicators.TrueRangeFacts | scripts/analyze_and_publish.py:28-30 | The true range is always defined and is ≥ abs(h − l) ≥ 0, and TR[0] = abs(h0 − l0). Later rows give the largest of the three gaps to the previous close. |
| Indicators.TrueRange | scripts/analyze_and_publish.py:27-30 | The true range has one entry per bar; its values are stated by Indicators.TrueRangeFacts. |
| Indicators.Atr | scripts/analyze_and_publish.py:27-31 | `atr(df, period)` has one entry per bar; its definedness and sign are stated by Indicators.AtrFacts. |
| Indicators.AtrFacts | scripts/analyze_and_publish.py:29-31 | ATR is defined exactly from row `period` − 1 on, and is never negative. |
| Drift.Squares | scripts/analyze_and_publish.py:36 | `ret**2` is defined exactly where the return is. |
| Drift.Returns | scripts/analyze_and_publish.py:34 | `pct_change()` with infinities replaced by NaN has one entry per close; Drift.ReturnsOfNonZero gives its values. |
| Drift.DriftOf | scripts/analyze_and_publish.py:33-38 | A defined estimate's mu is pandas' weighted mean of the returns at the last row. |
| Drift.EstimateOf | scripts/analyze_and_publish.py:35-38 | The pair read off the two last-row means is defined exactly when both means are, and its mu is then the mean of the returns. A NaN in either mean makes both values NaN. |
| Drift.ClampVariance | scripts/analyze_and_publish.py:37 | `max(var, 0)` is non-negative, at least `var`, and is either `var` or 0: `var` itself when non-negative, otherwise 0. |
| Drift.DriftVol | scripts/analyze_and_publish.py:33-38 | `drift_vol` raises (IndexError from `iloc[-1]`) exactly on an empty column. |
| Drift.DriftDefinedIff | scripts/analyze_and_publish.py:34-35 | The estimate is defined (not NaN) exactly when some price before the last is non-zero, i.e. some return is defined. |
| Drift.DriftSigma | scripts/analyze_and_publish.py:35-37 | mu is pandas' weighted mean of the returns at the last row; sigma ≥ 0 and sigma² = max(E[r²] − mu², 0). |
| Drift.ReturnsOfNonZero | scripts/analyze_and_publish.py:34 | Without a zero price, the returns are a missing row 0 followed by the simple returns. |
| Drift.DriftOfNonZeroPrices | scripts/analyze_and_publish.py:34-37 | Without a zero price, mu and E[r²] are the EMA recurrences over the returns from row 1 on and over their squares. |
| Drift.DriftAboveMinusOne | scripts/analyze_and_publish.py:34-35 | With positive prices the estimate is defined and mu > −1, so log(1 + mu) exists. |
| Drift.RisingScenario | scripts/analyze_and_publish.py:33-38 | The closes 100, 101, 99, 102, 103 give mu > 0 and sigma > 0. |
| Projection.ProjectPrice | scripts/analyze_and_publish.py:40-48 | `project_price` goes through exactly when p0 > 0, mu > −1 and the largest exponent, mean_log + abs(stdev), is at most `ExpLimit`. Its error is the math domain error exactly when p0 ≤ 0 or mu ≤ −1 (even for n = 0), and otherwise the overflow error. |
| Projection.BandOrdered | scripts/analyze_and_publish.py:43-47 | With sigma ≥ 0, stdev ≥ 0 and mean_log − stdev ≤ mean_log ≤ mean_log + stdev, hence lo ≤ mid ≤ hi whenever a band is computed. |
| Projection.ZeroSigmaCollapses | scripts/analyze_and_publish.py:44-47 | With sigma = 0 the band is computed exactly when p0 > 0, mu > −1 and mean_log is at most `ExpLimit`, and then lo = mid = hi. |
| Projection.ZeroStepsIsCurrentPrice | scripts/analyze_and_publish.py:43-47 | n = 0 gives mid = p0. With a lawful square root the band is computed exactly when p0 > 0, mu > −1 and log p0 is at most `ExpLimit`, and it is the single point p0. |
| Forecast.SmoothedShape | scripts/analyze_and_publish.py:86-87 | `close.rolling(w).mean().dropna()` is the mean of every run of w consecutive closes, in order, and is empty with fewer than w closes. |
| Forecast.CoarseEstimate | scripts/analyze_and_publish.py:86-87 | A coarser scale repeats the 1-minute estimate below its row threshold. With a threshold no smaller than its window it never raises. |
| Forecast.EstimateScales | scripts/analyze_and_publish.py:84-87 | The scale estimates raise exactly on an empty column. The coarser `drift_vol` calls, made only with 60 or 240 rows, never raise. |
| Forecast.ScaleSelection | scripts/analyze_and_publish.py:84-87 | 1-minute: span 60 on the closes. 15-minute: span 40 on the 15-row means when there are ≥ 60 rows, else the 1-minute estimate. Hourly: span 30 on the 60-row means when there are ≥ 240 rows, else the 1-minute estimate. |
| Forecast.ScalesVolatility | scripts/analyze_and_publish.py:84-87 | Every scale's sigma is non-negative. |
| Forecast.ScalesOfPositivePrices | scripts/analyze_and_publish.py:84-87 | With at least two positive closes every scale has an estimate with mu > −1. |
| Forecast.HorizonTable | scripts/analyze_and_publish.py:89-96 | Six horizons 1m, 5m, 15m, 30m, 1h, 12h with steps 1, 5, 15, 30, 4, 12. The first four use the 1-minute estimate, 1h the 15-minute one and 12h the hourly one. |
| Forecast.ProjectHorizon | scripts/analyze_and_publish.py:99-106 | One horizon goes through exactly when the price is positive and its projection fits (no estimate, or mu > −1 and no exponent above `ExpLimit`). An entry carries its horizon's label and has no band exactly for a NaN estimate. The error is the domain error exactly when the price ≤ 0 or mu ≤ −1, and otherwise the overflow error. |
| Forecast.ProjectAll | scripts/analyze_and_publish.py:98-106 | The loop succeeds exactly when every horizon does. Its entries are then the horizons' projections, one per horizon, in table order. Otherwise its error is that of the first horizon that raises. |
| Forecast.FirstError | scripts/analyze_and_publish.py:99-106 | A loop that stops at the first exception succeeds exactly when every step does, and then returns every step's value in order. Otherwise it fails with the error of the first step that fails, all earlier steps having succeeded. |
| Forecast.ForecastRows | scripts/analyze_and_publish.py:98-106 | The forecast loop, when it goes through, has one entry per horizon labelled in table order; its only errors are the math domain and overflow errors. |
| Forecast.ForecastFollowsTable | scripts/analyze_and_publish.py:89-106 | A forecast has six entries labelled in table order, each projected with its row's steps and its scale's estimate. A NaN estimate gives a missing band. |
| Forecast.ForecastOkIff | scripts/analyze_and_publish.py:98-106 | The forecast goes through exactly when the price is positive and every horizon's projection fits. It then has mu > −1 at every defined scale, and a non-positive price raises the math domain error. |
| Forecast.PositivePricesForecast | scripts/analyze_and_publish.py:84-106 | With at least two positive closes, the scale estimates raise nothing, and the forecast from the last close can raise only the overflow error. |
| Forecast.HorizonBandOrdered | scripts/analyze_and_publish.py:99-100 | One horizon's band is ordered when its sigma is non-negative. |
| Forecast.BandsOrdered | scripts/analyze_and_publish.py:98-106 | Every band of a forecast is ordered, lo ≤ mid ≤ hi, when no scale's sigma is negative. |
| Forecast.ForecastBandsOrdered | scripts/analyze_and_publish.py:84-106 | Every band of the forecast computed from the closes is ordered. |
| Forecast.ZeroVolatilityForecast | scripts/analyze_and_publish.py:89-106 | Zero volatility at every scale collapses every band onto its point estimate. |
| Candles.Tag | scripts/fetch_eth.py:27 | The source tag is "binance" or "coinbase". |
| Candles.TagInjective | scripts/fetch_eth.py:27 | The two providers have distinct tags. |
| Candles.ToNumeric | scripts/fetch_eth.py:23-24 | Coercion yields a number or a missing value, never text. |
| Candles.BinanceTable | scripts/fetch_eth.py:20-27 | The Binance table is built exactly when every open and close instant is in pandas' range, and otherwise raises. It then has one row per kline under the Binance column list. There is no emptiness check. |
| Candles.BinanceRow | scripts/fetch_eth.py:22-27 | A Binance row keeps the kline's open and close instants, holds no unparsed text in its price and volume cells, keeps `ignore` and is tagged "binance". |
| Candles.BinanceRows | scripts/fetch_eth.py:22-27 | Each Binance row keeps its kline's times and extra columns and is tagged "binance". Its price and volume cells are the parsed number, or missing when the text does not parse (never zero). |
| Candles.CoinbaseRowTimes | scripts/fetch_eth.py:43-44 | A Coinbase row's open_time is the candle's `time` seconds as whole milliseconds, and its close_time is 59 999 ms later (one minute less a millisecond). |
| Candles.CoinbaseRowColumns | scripts/fetch_eth.py:43-51 | A Coinbase row (`CoinbaseRow`) keeps the candle's open, high, low, close and volume, has no `ignore` column and is tagged "coinbase". |
| Candles.InsertByTime | scripts/fetch_eth.py:41 | Inserting into a time-sorted sequence keeps it sorted and adds exactly that candle. |
| Candles.SortByTime | scripts/fetch_eth.py:41 | `sort_values("time")` gives a permutation of the candles in ascending time order. |
| Candles.CoinbaseTable | scripts/fetch_eth.py:36-52 | A payload that is not a list or is empty raises "no data". One with a candle whose instant (or that instant plus a minute) is outside pandas' range raises an out-of-bounds error. Otherwise the table has one row per candle under the 12 canonical columns. |
| Candles.InsertRows | scripts/fetch_eth.py:41-46 | Inserting a candle adds exactly one copy of its row to the reshaped rows. |
| Candles.SortRows | scripts/fetch_eth.py:41-46 | Sorting permutes the reshaped rows. |
| Candles.CoinbaseRowsPermutation | scripts/fetch_eth.py:40-46 | The Coinbase rows are exactly the payload's candles' rows, each as often as in the payload. |
| Candles.CoinbaseRowsAscending | scripts/fetch_eth.py:41-43 | The Coinbase rows are in ascending open_time order. |
| Candles.CoinbaseRowsShape | scripts/fetch_eth.py:43-51 | Each Coinbase row closes 59 999 ms after it opens, on a whole second. It has missing quote_volume, trades, taker_base and taker_quote, no `ignore` column, and is tagged "coinbase". |
| Candles.CoinbaseRowInRange | scripts/fetch_eth.py:43-44 | A candle whose instants convert gives a row whose open and close instants, in milliseconds, are in pandas' range. |
| Candles.CoinbaseRowsInRange | scripts/fetch_eth.py:43-44 | Every open and close instant of a Coinbase table is in pandas' range. |
| Acquisition.CoinbaseFetch | scripts/fetch_eth.py:30-52 | The Coinbase fetch succeeds exactly when the request succeeds and the table can be built, and it then returns that table. A failed request raises the request error, and a failed table raises the table's own error. |
| Acquisition.Requests | scripts/fetch_eth.py:56-61 | Binance is asked first, and Coinbase is asked exactly when Binance's fetch raised: its request failed or an instant was out of range. |
| Acquisition.Acquire | scripts/fetch_eth.py:56-62 | The try/except fails exactly when Binance's fetch raises and so does Coinbase's; on success the provider is Binance exactly when its fetch went through. |
| Acquisition.Run | scripts/fetch_eth.py:54-71 | `main` fails exactly when the try/except does; otherwise the meta record counts the table's rows and names Binance exactly when its fetch went through, else Coinbase. |
| Acquisition.BinanceFirst | scripts/fetch_eth.py:56-58 | A Binance payload whose instants are in range, even an empty one, is written as is, with meta (its row count, "binance"). Coinbase is not asked, and its outcome changes nothing. A payload with an instant out of range gives exactly the run of a failed request. |
| Acquisition.CoinbaseFallback | scripts/fetch_eth.py:59-62 | After a Binance failure the result is exactly Coinbase's table tagged "coinbase", or Coinbase's error. |
| Acquisition.FailsOnlyWhenBothFail | scripts/fetch_eth.py:56-71 | The run fails, writing nothing, exactly when two things hold. Binance's request failed or one of its instants is out of range. And Coinbase's request failed, it sent anything but a non-empty list, or one of its instants is out of range. |
| Acquisition.NoMixing | scripts/fetch_eth.py:56-69 | The written table is one provider's whole table. The meta record counts its rows and names that provider (Binance exactly when its fetch went through), and every row carries that provider's tag. |

## Left out

- HTTP requests, timeouts, headers and `raise_for_status` are left out. Each request is
  an input outcome. For Binance, `Failed` stands for a failed request, an undecodable
  body and a payload pandas cannot shape into a DataFrame; an instant out of pandas'
  range is modelled by `Candles.BinanceTable`. For Coinbase, `Failed` stands for a
  failed request and an undecodable body.
- Reading and writing the CSV, JSON and HTML files is left out, as are
  `os.makedirs` and `shutil.copyfile`. `Acquisition.Run` returns what would be written.
- Wall-clock time and time zones are left out: the meta record's `generated_at_jst`,
  the summary timestamp and its fallback to the current time, and the conversion of
  instants to Tokyo time.
- IEEE floating point and the `round(·, 2)` / `round(·, 6)` of the report are left out.
  Numbers are exact reals.
- `log`, `exp` and the square root are not computed. They are parameters, and no
  numeric output value is reproduced.
- The control flow of `main` in analyze_and_publish.py is left out: its reads, the
  `to_numeric` of the price columns, the last-row snapshot and the report. As written
  it does not parse, because line 147 sits at module level and line 150 is indented
  again. Only its scale selection and horizon table are modelled, with the closes
  given as a column with no missing value.
- The provider payloads are typed: every kline is 12 fields of the modelled types,
  and every Coinbase candle is six fields led by an integer time. Other payloads are not
  modelled. pandas raises for some of them, such as a row wider than 12 fields or a
  timestamp that is not numeric. It converts others without raising: a float
  timestamp is taken as it is, and a row shorter than the widest is padded with
  missing values, which become NaT in the time columns. Timestamps out of pandas'
  range are modelled.
- Projection.ProjectPrice: the comparison with `ExpLimit` is made on the exact
  exponent. Floating-point rounding of mean_log and stdev, which can move an exponent
  within a few units in the last place of the limit across it, is not modelled.
- Forecast.ForecastOkIff: the overflow condition is the exact-real one of
  `Projection.ProjectPrice`, with the same rounding left out.
- Candles.SortByTime: pandas' default sort is not stable, so the order among candles
  with equal `time` is not stated. The model sorts stably.
