# Stock analysis pipeline, modelled in Dafny

This project models the deterministic data pipeline inside the
`StockAnalysisSystem` class of `stock_prediction_.py`. The pipeline has three parts.

- **Return columns.** Each collected price history gets `Daily_Return`, the
  percentage change of the close, and `Cum_Return`, the compounded percentage
  gain since the first bar.
- **Technical indicators.** These are SMA 20/50/200, EMA 12/26, MACD with its
  signal line and histogram, the 14-bar RSI, the 20-bar Bollinger bands and
  10-bar momentum. They are sequence-to-sequence functions; `None` stands for
  the NaN warm-up gaps and undefined values.
- **Forecast.**
  - The closes are min-max scaled.
  - They are split chronologically at `ceil(0.8 n)`.
  - The training and test look-back windows of 60 bars are cut.
  - The trained model predicts every test bar.
  - An autoregressive rollout feeds the model its own predictions for a number
    of future days.
  - All predictions are mapped back to prices.
  - The mean squared error is taken against the test closes, and the future
    predictions get consecutive future dates.

Every number is an exact Dafny `real`. The trained network is a parameter: a
`Model` maps a window of scaled values to the next scaled value, and a
`Trainer` maps training windows and targets to a `Model`. Downloading prices
is also a parameter: a function from a symbol to its bars, or to `None` where
the download fails.

Modules, one file each:

- `Series` (`series.dfy`): `Option`, `Result`, the pipeline's errors and sums.
- `Returns` (`returns.dfy`): the return columns.
- `Indicators` (`indicators.dfy`): the indicator columns.
- `Scaling` (`scaling.dfy`): the min-max scaler.
- `Windowing` (`windowing.dfy`): the split and the look-back windows, including
  the training and test loops as methods.
- `Forecast` (`forecast.dfy`):
  - the rollout loop as a method;
  - the whole per-symbol forecast, as a specification function `ForecastOf`
    and as a method `TrainPredict` that runs the three loops;
  - the error metric and the buy/sell/hold rule.
- `System` (`system.dfy`): the `AnalysisSystem` class. Its maps of price
  histories, indicator frames, models and forecasts are updated by its three
  pipeline methods.

Edge cases of the pipeline, as the code handles them:

- **Split position.** The split is at `ceil(0.8 n)`, as the code computes it
  (`(4n + 4) / 5` in integers).
- **Short series.** A non-empty, non-constant series with at most 75 bars is
  refused with `InsufficientData`. With 75 bars or fewer, the training prefix holds at most
  60 values, so the code has no training window. Reshaping the empty training
  array then fails (`stock_prediction_.py:166`), and this happens before the
  test slice at :184 could wrap around on a negative start. The model therefore
  needs `n >= 76` bars.
- **RSI with no losses.** RSI follows IEEE arithmetic as the code does. A zero
  average loss with a positive average gain gives 100. Zero gain and zero loss
  together give NaN (`None`).
- **Empty series.** An empty close column fails with `NoData`.
- **No future days.** With `prediction_days = 0` the array of future
  predictions is empty, and mapping it back to prices (`stock_prediction_.py:220`)
  raises an error, so the forecast fails with `NoFutureDays` and nothing is
  stored.
- **The scaler looks ahead.** The scaler is fitted on the whole close column
  (`stock_prediction_.py:144-145`) before the split at :148-151. The test
  closes therefore reach every scaled training value through the fitted
  minimum and maximum, and so they influence training. Training proper sees
  only the scaled training prefix (`TrainingSeesOnlyTrainingBars`). Two
  close columns that agree on every training bar can still train different
  models (`ScalerSeesTestBars`).

## Model

| member | source | states |
|---|---|---|
| Series.SumSquaredErrorNonNegative | stock_prediction_.py:200 | the squared-error sum is never negative and is zero for identical series |
| Returns.PercentChange | stock_prediction_.py:58 | a percentage change is defined exactly when the previous close is non-zero |
| Returns.PercentChangeRecovers | stock_prediction_.py:58 | growing the previous close by its percentage change gives back the current close |
| Returns.DailyReturn | stock_prediction_.py:58 | one entry per bar; the first is NaN; every later one is the percentage change from the previous close |
| Returns.GrowthFactor | stock_prediction_.py:61 | a growth factor exists exactly when the return does, and `(factor - 1)·100` gives the return back |
| Returns.Compounded | stock_prediction_.py:61 | the running product over bars 1..i is defined exactly when every return in 1..i is |
| Returns.CumReturn | stock_prediction_.py:61-62 | one entry per bar: the first is NaN because the cumulative product skips it, and every later one is the percentage gain of the daily growth factors compounded up to that bar |
| Returns.GainOf | stock_prediction_.py:61-62 | the percentage gain is defined exactly when the growth factor is, and dividing it by 100 and adding 1 gives the factor back |
| Returns.CompoundedTelescopes | stock_prediction_.py:61 | for positive closes, the product of `1 + r/100` over bars 1..i equals `close[i] / close[0]` |
| Returns.CumReturnIsGainSinceFirst | stock_prediction_.py:61-62 | for positive closes, `Cum_Return[i]` is `(close[i]/close[0] - 1) * 100` |
| Indicators.TrailingWindow | stock_prediction_.py:94-96 | the window ending at bar i holds exactly the w closes `i-w+1 .. i` |
| Indicators.RollingMean | stock_prediction_.py:94-96 | a w-bar rolling mean is defined exactly from bar `w-1` on, with one entry per bar |
| Indicators.RollingMeanWithinWindow | stock_prediction_.py:94-96 | a rolling mean lies between any lower and upper bound of its window |
| Indicators.RollingMeanOfConstant | stock_prediction_.py:94-96 | the rolling mean of a constant series is that constant wherever it is defined |
| Indicators.Smoothing | stock_prediction_.py:99-100 | the smoothing factor `2/(span+1)` lies in (0, 1] |
| Indicators.Ema | stock_prediction_.py:99-100 | the EMA has one entry per bar |
| Indicators.EmaPrefix | stock_prediction_.py:99-100 | the EMA of a prefix is the prefix of the EMA, so a value never depends on later bars |
| Indicators.EmaRecurrence | stock_prediction_.py:99-100 | `ema[0] = x[0]` and `ema[i] = k·x[i] + (1-k)·ema[i-1]` (`adjust=False`) |
| Indicators.EmaOfConstant | stock_prediction_.py:99-100 | the EMA of a constant series is that constant |
| Indicators.EmaWithinRange | stock_prediction_.py:99-100 | the EMA stays within any bounds of its input |
| Indicators.EmaLastWithin | stock_prediction_.py:99-100 | the induction step: when the last input and the previous EMA value lie in `[lo, hi]`, so does the last EMA value |
| Indicators.EmaLastOfConstant | stock_prediction_.py:99-100 | the induction step: when the last input and the previous EMA value both equal `v`, so does the last EMA value |
| Indicators.Macd | stock_prediction_.py:103 | the MACD line has one entry per bar |
| Indicators.MacdSignal | stock_prediction_.py:104 | the signal line has one entry per bar |
| Indicators.MacdHistogram | stock_prediction_.py:105 | the histogram has one entry per bar |
| Indicators.MacdPrefix | stock_prediction_.py:99-105 | MACD, signal and histogram of a prefix of the closes are the prefixes of those columns, so no value depends on a later bar |
| Indicators.MacdOfConstant | stock_prediction_.py:103-105 | a constant close gives zero MACD, signal and histogram |
| Indicators.Gain | stock_prediction_.py:109 | gains are never negative |
| Indicators.Loss | stock_prediction_.py:110 | losses are never negative |
| Indicators.GainLossSplit | stock_prediction_.py:108-110 | gain minus loss is the price change; one of them is zero; both are zero exactly when the price did not move |
| Indicators.RsiShareOfGain | stock_prediction_.py:113-114 | RSI is defined exactly when gain plus loss is positive. It equals `100·g/(g+l)`. It is in [0, 100) when losses are positive and exactly 100 when there are only gains |
| Indicators.RsiFormula | stock_prediction_.py:113-114 | with a positive average loss, `100 - 100/(1+rs)` lies in [0, 100) |
| Indicators.Rsi | stock_prediction_.py:108-114 | RSI has one entry per bar and none before bar 13 |
| Indicators.RsiInRange | stock_prediction_.py:108-114 | every defined RSI value lies in [0, 100] |
| Indicators.RsiUndefinedWhenFlat | stock_prediction_.py:108-114 | from bar 13 on, RSI is NaN exactly when the close did not move over the last 14 bars |
| Indicators.NoMovementIffFlat | stock_prediction_.py:108-110 | every gain and loss in the window is zero exactly when the closes in it are all equal |
| Indicators.MeanZeroIffAllZero | stock_prediction_.py:111-112 | a rolling mean of non-negative values is zero exactly when all of them are zero |
| Indicators.RollingMeanNonNegative | stock_prediction_.py:111-112 | a rolling mean of non-negative values is non-negative |
| Indicators.Bollinger | stock_prediction_.py:117-121 | every band column has one entry per bar; the upper band is defined exactly where the middle band and the std are, and the lower band exactly where the upper one is |
| Indicators.BandsOrdered | stock_prediction_.py:117-121 | with a non-negative std, lower ≤ middle ≤ upper, the two bands are 2·std from the middle, and the width is `4·std/middle` |
| Indicators.Momentum | stock_prediction_.py:124 | momentum is defined exactly from bar 10 on where the close ten bars back is non-zero, and then `momentum · close[i-10] = close[i]` |
| Indicators.ComputeIndicators | stock_prediction_.py:92-127 | the frame keeps the closes and the supplied `BB_Std` column; its computed columns have one entry per bar; the Bollinger middle is SMA20; MACD and histogram are the stated differences |
| Indicators.RsiValue | stock_prediction_.py:113-114 | for non-negative average gain and loss, RSI is defined exactly when their sum is positive; a zero loss with a positive gain gives 100 |
| Scaling.Min | stock_prediction_.py:145 | the fitted minimum is a lower bound of the closes and is one of them |
| Scaling.Max | stock_prediction_.py:145 | the fitted maximum is an upper bound of the closes and is one of them |
| Scaling.Fit | stock_prediction_.py:144-145 | fitting fails with NoData on an empty column and with DegenerateRange on a constant one, and succeeds otherwise. A fitted range has min < max, contains every close and is attained by closes at both ends |
| Scaling.Transform | stock_prediction_.py:145 | a price scales to 0 exactly when it is the fitted minimum and to 1 exactly when it is the fitted maximum |
| Scaling.Inverse | stock_prediction_.py:197 | a scaled value maps back to the fitted minimum exactly for 0 and to the fitted maximum exactly for 1 |
| Scaling.InverseOfTransform | stock_prediction_.py:197 | scaling a price back after scaling it gives the price |
| Scaling.TransformOfInverse | stock_prediction_.py:220 | scaling a value that was scaled back gives the value |
| Scaling.TransformInUnitInterval | stock_prediction_.py:144-145 | prices within the fitted range land in [0, 1], with min on 0 and max on 1 |
| Scaling.TransformMonotone | stock_prediction_.py:145 | scaling keeps the strict order of prices |
| Scaling.TransformAll | stock_prediction_.py:145 | the scaled column has one scaled entry per close |
| Scaling.InverseAll | stock_prediction_.py:220 | the unscaled column has one price per scaled value |
| Scaling.ColumnRoundTrip | stock_prediction_.py:197 | scaling a column and scaling it back returns the column |
| Scaling.FitOfBounds | stock_prediction_.py:144-145 | a column that holds `lo` and `hi` and lies between them, with `lo < hi`, is fitted to exactly the range `[lo, hi]` |
| Scaling.FittedColumnInUnitInterval | stock_prediction_.py:144-145 | the column the scaler was fitted on is mapped into [0, 1] |
| Windowing.TrainingDataLen | stock_prediction_.py:148 | the training length is the least integer ≥ 0.8·n and never exceeds n |
| Windowing.SplitLeavesTestBars | stock_prediction_.py:148 | from five bars on, at least one bar is left for testing |
| Windowing.EnoughForTraining | stock_prediction_.py:148-166 | there is a training window exactly when the series has at least 76 bars |
| Windowing.Windows | stock_prediction_.py:158-159 | a series of length m yields m - t windows, each of length t |
| Windowing.Targets | stock_prediction_.py:158-160 | there is one target per window |
| Windowing.TrainingWindows | stock_prediction_.py:156-163 | the training loop yields exactly the windows and targets of the training prefix |
| Windowing.TestWindows | stock_prediction_.py:184-193 | the test loop yields the windows cut from 60 bars before the split, one per test bar |
| Windowing.TestWindowAlignment | stock_prediction_.py:184-190 | test window j covers bars `len+j-60 .. len+j-1`, so it ends just before the test bar it predicts |
| Windowing.TrainingWindowAlignment | stock_prediction_.py:151-160 | every training window and its target lie inside the training prefix |
| Forecast.Last | stock_prediction_.py:203 | the seed window holds exactly the last k values |
| Forecast.RolloutPredictions | stock_prediction_.py:203-217 | a rollout over d days yields d predictions |
| Forecast.RolloutPrefix | stock_prediction_.py:206-217 | a longer rollout extends a shorter one: later days never change earlier predictions |
| Forecast.RolloutStep | stock_prediction_.py:206-217 | prediction k comes from the last 60 values of seed plus earlier predictions; from day 60 on, that window holds predictions only |
| Forecast.SlideWindow | stock_prediction_.py:216-217 | dropping the oldest value and appending the prediction gives the last 60 values of the extended series |
| Forecast.Rollout | stock_prediction_.py:203-217 | the future loop computes exactly the rollout, with the buffer kept at 60 values as an invariant |
| Forecast.FutureDates | stock_prediction_.py:223-224 | the future dates are `prediction_days` consecutive days, strictly increasing, all after the last date, and the first is the day after it |
| Forecast.MeanSquaredError | stock_prediction_.py:200 | the mean squared error is never negative and is zero for identical series |
| Forecast.Predict | stock_prediction_.py:196 | there is one prediction per window, and each is the model's output on that window |
| Forecast.TrainedModel | stock_prediction_.py:151-181 | the trainer is given exactly the training windows of 60 scaled closes and their targets, both cut from the scaled training prefix of `ceil(0.8 n)` bars |
| Forecast.TrainingSeesOnlyTrainingBars | stock_prediction_.py:151-181 | over scaled columns: two scaled columns of the same length that agree on the scaled training prefix give the same model, whatever their scaled test bars hold |
| Forecast.ScalerSeesTestBars | stock_prediction_.py:144-151 | over close columns, training looks ahead: 0 followed by 75 ones, and the same column with its last (test) close raised to 2, agree on all 61 training bars, yet both fit and give different models for a trainer that answers its first target |
| Forecast.ForecastOf | stock_prediction_.py:139-245 | a forecast succeeds exactly for 76 or more non-constant closes and at least one future day; otherwise it fails with NoData, DegenerateRange, InsufficientData or NoFutureDays, in that order of precedence. A successful forecast uses the scaler fitted on the closes and a look-back of 60. It has one historical prediction per test bar, each the model's output for the 60 scaled closes just before that bar, mapped back to a price. It has one future close per future date |
| Forecast.TrainPredict | stock_prediction_.py:139-245 | the training, test and future loops compute exactly the forecast `ForecastOf` describes |
| Forecast.PredictedTestBars | stock_prediction_.py:184-197 | the predictions over all test windows, mapped back to prices, are aligned with the test bars: entry j comes from the 60 scaled closes just before bar `len+j` |
| Forecast.PredictedTestBar | stock_prediction_.py:189-197 | test prediction j, mapped back to a price, comes from the window just before bar `len+j` |
| Forecast.FutureAlignment | stock_prediction_.py:203-220 | the first future close is the model's output for the last 60 scaled closes, mapped back to a price |
| Forecast.FutureCloses | stock_prediction_.py:203-220 | the future closes are the rollout seeded with the last 60 scaled closes, mapped back through the same fitted scaler as the test predictions |
| Forecast.ForecastFuturePart | stock_prediction_.py:203-220 | the future closes of a successful forecast are the rollout of the trained model from the last 60 scaled closes, mapped back through the fitted scaler |
| Forecast.FirstPrediction | stock_prediction_.py:203-212 | the first prediction of a rollout is the model's output on the seed window |
| Forecast.PerfectModelHasZeroError | stock_prediction_.py:196-200 | test predictions aligned with the test bars from a model that predicts every scaled test close exactly map back to the test closes themselves, so their mean squared error is zero |
| Forecast.PerfectForecastHasZeroError | stock_prediction_.py:196-200 | the forecast of a column whose trained model predicts every scaled test close exactly reports a zero mean squared error |
| Forecast.ForecastTestPart | stock_prediction_.py:184-200 | a successful forecast uses the fitted scaler, splits at `ceil(0.8 n)` and uses the model trained on the scaled closes. It has one historical prediction per test bar, aligned with the test bars, and its reported error is the mean squared error of the test closes against them |
| Forecast.Recommend | stock_prediction_.py:689-694 | for a positive last close, buy is advised only on a predicted rise, sell only on a predicted fall, and an unchanged price is held |
| Forecast.RecommendByPercentChange | stock_prediction_.py:689-694 | for a positive last close, the advice is buy above a +5% predicted change, sell below -5% and hold in between |
| Forecast.RecommendMonotone | stock_prediction_.py:689-694 | a higher predicted close never gives weaker advice |
| System.Closes | stock_prediction_.py:141 | the close column has one close per bar |
| System.WithReturns | stock_prediction_.py:58-62 | a collected history keeps its bars, with one return entry per bar |
| System.Collected | stock_prediction_.py:47-71 | collecting keeps every symbol already stored and adds only symbols from the list |
| System.FrameOf | stock_prediction_.py:89-127 | a symbol's frame is computed over its closes with the rolling std of those closes, one entry per bar |
| System.CollectedEntries | stock_prediction_.py:47-73 | collecting stores exactly the symbols whose download holds bars, each with its return columns, and keeps every other entry |
| System.CollectedStep | stock_prediction_.py:47-65 | collecting one more symbol stores its history, with both return columns, exactly when its download holds bars, and otherwise changes nothing |
| System.AllIndicators | stock_prediction_.py:89-127 | there is exactly one frame per collected symbol, computed from that symbol's closes |
| System.IndicatorLoop | stock_prediction_.py:89-131 | the loop over the collected symbols, in any order, leaves the earlier frames overwritten by exactly the frames of all collected symbols |
| System.AnalysisSystem.constructor | stock_prediction_.py:36-41 | a new system holds no histories, indicators, models or forecasts |
| System.AnalysisSystem.CollectStockData | stock_prediction_.py:43-73 | the stock data becomes the collection of the symbols in order, and nothing else changes |
| System.AnalysisSystem.CalculateTechnicalIndicators | stock_prediction_.py:85-131 | every collected symbol gets its indicator frame, frames of other symbols are kept, and nothing else changes |
| System.AnalysisSystem.TrainPredictLstm | stock_prediction_.py:133-245 | an unknown symbol fails. Otherwise the result is the symbol's forecast. Model and forecast are stored only on success, and the price data is unchanged |
| System.AnalysisSystem.StoreForecast | stock_prediction_.py:233-241 | a successful forecast is stored together with the model trained on the scaled closes it came from; a failed one stores nothing |

## Left out

- Downloading prices through yfinance, the S&P 500 market download (`market_data`) and the `Symbol` column: these are network I/O and bookkeeping. The fetch is a parameter.
- Building, compiling and training the LSTM and `model.predict`: this is an opaque numerical library. The trained model is a function parameter, and training is a function from windows and targets to a model. The code trains unseeded (random initial weights, shuffled batches, dropout), so two runs on the same windows can give different models. A `Trainer` stands for one training run with its randomness fixed. Under that reading, the model that `System.AnalysisSystem.TrainPredictLstm` stores, obtained by applying the trainer to the same windows again, is the model the forecast used.
- The rolling standard deviation of the Bollinger bands: it needs a square root over floats. It is supplied as a column.
- The other columns of each indicator frame: the code stores a copy of the whole price table with the indicator columns added. The model's frame holds the closes, the indicator columns and the supplied `BB_Std` column. It does not copy the two return columns, which stay in the stock data. A bar holds only its day and close, so the open, high, low and volume columns are not modelled at all.
- Scaling.Fit and Forecast.ForecastOf: a constant close column fails with `DegenerateRange`. The library scaler the code calls replaces a zero range by 1 instead, so every scaled close would be 0 and the forecast would go on. That zero-range rule belongs to the library, outside this program, so the model refuses a constant column.
- System.AnalysisSystem.TrainPredictLstm: the default of 30 future days (`stock_prediction_.py:133`) is not modelled; the number of future days is always passed explicitly.
- RMSE: only the mean squared error is modelled, because the square root is not.
- Series.SumSquaredErrorNonNegative: it does not prove that a zero squared-error sum forces identical series. Forecast.MeanSquaredError has the same gap.
- IEEE-754 rounding: all arithmetic is exact over reals. `ceil(n * 0.8)` is modelled as `ceil(4n / 5)`.
- A NaN close in the downloaded data: closes are modelled as reals, so gaps are not modelled.
- Calendar dates are modelled as integer day numbers.
- The plots (`visualize_stock_price`, `visualize_predictions`, the portfolio figures), the portfolio statistics (volatility, `sqrt(252)` annualisation, correlations), the HTML report and the file download: these are presentation and I/O. The exception is the buy/sell/hold rule, which is modelled.
- The `!pip` lines, the report method attached to the class afterwards, and the notebook driver: these are glue code.
- Printed progress messages and caught exceptions that only print: these are console output. A failed download is skipped, as in the code.
