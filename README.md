# Crypto KI app: indicator, signal and backtest core in Dafny

The app is a Streamlit dashboard. It fetches a coin's price history, adds
four indicator columns to the price frame (SMA20, SMA50, EMA20 and a
14-period RSI), and scores the last row into a BUY / SELL / HOLD signal. It
also replays an SMA-crossover strategy over the history, computes a
reward-to-risk ratio, and appends manually entered trades to a log. This
project models that computational core over Dafny `real`s:

- `series.dfy` (module `Series`): a column entry that may be undefined (pandas
  NaN) is an `Option<real>`. `Gt` and `Lt` compare entries the way IEEE
  floats do: any comparison with an undefined entry is false.
- `indicators.dfy` (module `Indicators`): `rolling(w).mean()` with pandas'
  default `min_periods = w`, the SMA20/SMA50 columns, the `ewm(span=20)` EMA
  (the `adjust=True` weighted average with decay 19/21), and the RSI built
  from `diff()`, `clip` and rolling means. The `Frame` class holds the price
  column and the four indicator columns; `AddIndicators` adds them in place.
- `signal.dfy` (module `Signal`): the four scoring rules, the score, the
  classification, and `AiSignal`, which builds the score rule by rule on the
  frame's last row.
- `backtest.dfy` (module `Backtest`): the crossover loop as a method over the
  price and SMA columns, specified by a step function `Step` and its replay
  `Run`.
- `risk.dfy` (module `Risk`): the reward-to-risk ratio.
- `tradelog.dfy` (module `TradeLog`): the trade record and the in-memory log
  that trades are appended to.

Points where the code's behaviour is not the textbook one, and the model
follows the code:

- RSI on a flat window: the textbook RSI convention gives 100 when a window
  has no losses. The code divides the two averages, which is `0/0` when the
  window is flat, so the RSI is NaN (undefined) there. The model gives 100
  only when the average loss is 0 and the average gain is positive
  (`RsiPointRange`, `RsiUndefinedIffFlat`).
- Undefined indicators in the signal: the code has no guard for an
  undefined (NaN) indicator. Any comparison with NaN is false, so an
  undefined indicator never scores. The model keeps this and adds no guard
  (`ShortSeriesHolds`, `NoTrendBeforeFifty`).
- `ai_signal` reads `iloc[-1]`, which fails on an empty frame. `AiSignal`
  therefore requires a non-empty frame.
- The ratio divides by `entry - sl` with no guard, and Python raises on a
  float division by zero. `RiskReward` therefore requires
  `entry != stopLoss` whenever all three prices are positive.

## Model

| member | source | states |
|---|---|---|
| `Series.Gt` | app.py:79 | a comparison with an undefined (NaN) entry is false: `Gt` implies both sides are defined and different, and `Gt(a, b)` holds exactly when `Lt(b, a)` does |
| `Series.Lt` | app.py:85 | `Lt` implies both sides are defined and different |
| `Indicators.RollingMean` | app.py:59-60 | a rolling mean over w entries is undefined at every index below w−1; from w−1 on it is defined exactly when its whole window is defined (pandas' `min_periods = w`) |
| `Indicators.RollingMeanAtLeast` | app.py:59-60 | a rolling mean of entries that are all at least lo is at least lo wherever it is defined |
| `Indicators.RollingMeanAtMost` | app.py:59-60 | a rolling mean of entries that are all at most hi is at most hi wherever it is defined |
| `Indicators.Sma` | app.py:59-60 | the SMA column has the length of the prices; entry i is defined exactly when i ≥ w−1, and then equals the mean of prices[i−w+1..i] |
| `Indicators.SmaUndefinedOnShortSeries` | app.py:59-60 | a series shorter than the window (e.g. fewer than 20 prices for SMA20) has no defined SMA anywhere |
| `Indicators.SmaWithinWindow` | app.py:59-60 | a defined SMA lies between any lower and upper bound of the prices in its window |
| `Indicators.Ema` | app.py:61 | the EMA column has the length of the prices, is defined from index 0 on, and equals the first price at index 0 |
| `Indicators.EmaWeight` | app.py:61 | the sum of the geometric weights is at least 1, so the weighted average is well defined |
| `Indicators.EmaWithinHistory` | app.py:61 | the EMA at i lies between any bounds of prices[0..i]: it is a weighted average of them |
| `Indicators.EmaRecurrence` | app.py:61 | the adjusted EMA in recursive form: EMA[i] = EMA[i−1] + (price[i] − EMA[i−1]) / W(i), W(i) the sum of the weights so far |
| `Indicators.EmaMovesTowardPrice` | app.py:61 | each EMA value lies between the previous EMA value and the new price |
| `Indicators.Diff` | app.py:63 | the change column is undefined at index 0; at every later index it is defined, and the previous price plus the change is the price |
| `Indicators.ClipLower` | app.py:64 | clipping from below keeps definedness; a clipped entry is non-negative, at least the original, and is either the original or 0 |
| `Indicators.ClipUpper` | app.py:65 | clipping from above keeps definedness; a clipped entry is non-positive, at most the original, and is either the original or 0 |
| `Indicators.Negate` | app.py:65 | negation keeps definedness, and a defined entry plus its negation is 0 |
| `Indicators.AvgGain` | app.py:64 | the average gain is undefined at every index below 14 (its first window holds the undefined change at index 0) |
| `Indicators.AvgLoss` | app.py:65 | the average loss is undefined at every index below 14 |
| `Indicators.FlatWindow` | app.py:63-67 | the mean of the clipped gains and the negated mean of the clipped losses of a window are both 0 exactly when every change in it is 0 |
| `Indicators.RsiPoint` | app.py:66-67 | the RSI of two non-negative averages is undefined exactly when either is undefined or both are 0; otherwise it lies in [0,100], and it is exactly 100 iff the loss is 0 and the gain positive |
| `Indicators.RsiFormula` | app.py:66-67 | with a positive loss, 100 − 100/(1 + gain/loss) equals 100·gain/(gain+loss) and lies in [0,100) |
| `Indicators.AveragesNonNegative` | app.py:63-65 | the average gain and the average loss (`-` applied after the rolling mean of the non-positive changes) are never negative |
| `Indicators.RsiAverages` | app.py:63-65 | from index 14 on both averages are defined and are the means of the clipped price changes of the 14-change window |
| `Indicators.Rsi` | app.py:66-67 | the RSI column has the length of the prices, is undefined at every index below 14, and lies in [0,100] wherever it is defined |
| `Indicators.RsiPointRange` | app.py:66-67 | with a positive average loss, RSI = 100·gain/(gain+loss) and lies in [0,100); with no loss it is 100 after a gain, and undefined (0/0) when both averages are 0 |
| `Indicators.RsiUndefinedEarly` | app.py:63-67 | the RSI is undefined at every index below 14 |
| `Indicators.RsiBounds` | app.py:63-67 | a defined RSI has index ≥ 14, lies in [0,100], and is exactly 100 iff the average loss is 0 |
| `Indicators.RsiUndefinedIffFlat` | app.py:63-67 | from index 14 on, the RSI is undefined exactly when all 14 price changes of the window are 0 |
| `Indicators.RowAt` | app.py:59-67 | a row of the computed frame carries its price; its SMA20 is defined iff i ≥ 19, its SMA50 iff i ≥ 49, and its EMA20 always |
| `Indicators.Frame.constructor` | app.py:120 | a frame as fetched holds the prices and no indicator column yet |
| `Indicators.Frame.AddIndicators` | app.py:57-69 | adds the four columns in place, each the indicator function of the unchanged prices, aligned with them row for row |
| `Signal.Trend` | app.py:79 | the trend rule can only hold when both SMA20 and SMA50 are defined |
| `Signal.Momentum` | app.py:82 | the momentum rule can only hold when EMA20 is defined |
| `Signal.IsOversold` | app.py:85 | the oversold rule holds only on a defined RSI below 30 |
| `Signal.IsOverbought` | app.py:88 | the overbought rule holds only on a defined RSI above 70 |
| `Signal.Score` | app.py:77-89 | the score lies in [−1,3]; it is 3 exactly when trend, momentum and oversold all hold, and −1 exactly when only overbought holds |
| `Signal.Classify` | app.py:91-95 | total and exclusive: BUY iff score ≥ 2, SELL iff score ≤ −1, HOLD iff −1 < score < 2 |
| `Signal.AiSignal` | app.py:75-95 | the score built step by step on the frame's last row equals `Score` of that row, and the label is its classification |
| `Signal.RsiAdjustmentsExclusive` | app.py:85-89 | the oversold bonus and the overbought penalty never both apply |
| `Signal.LabelRules` | app.py:77-95 | BUY iff at least two bullish rules hold and the RSI is not above 70; SELL iff the RSI is above 70 with neither trend nor momentum |
| `Signal.ShortSeriesHolds` | app.py:79-95 | on at most 14 prices SMA50 and RSI are undefined, so the signal is always HOLD |
| `Signal.NoTrendBeforeFifty` | app.py:79-95 | below 50 prices the trend rule never scores, so BUY needs both momentum and an oversold RSI |
| `Signal.ScoreExamples` | app.py:77-95 | worked examples: (106 > 104, 105 > 100, RSI 50) scores 2, BUY; (RSI 75, below both averages) scores −1, SELL; all equal, RSI 50, scores 0, HOLD |
| `Backtest.Step` | app.py:162-168 | one iteration: flat with SMA20 > SMA50, all cash becomes coins worth that cash at the price; holding with SMA20 < SMA50, all coins become their worth in cash; otherwise the account is unchanged |
| `Backtest.Run` | app.py:157-168 | the account after the loop has visited indices 50..k−1: before any iteration it is 1000 cash and no coins, and cash and coins are never negative |
| `Backtest.Outcome` | app.py:170 | the reported result is never negative, and is the account (all cash or all coins) valued at the last price |
| `Backtest.RunBacktest` | app.py:157-170 | the loop keeps the account all cash or all coins after every iteration; its result equals the replay `Outcome` of the columns, is positive, and is exactly 1000 on at most 50 prices |
| `Backtest.StepConservesValue` | app.py:162-168 | a step keeps the account all cash or all coins; its value at the step's price is unchanged; a buy's coins times the price equal the cash before, and a sell's cash equals the coins before times the price |
| `Backtest.HoldingIgnoresGoldenState` | app.py:162-164 | the buy fires on the state SMA20 > SMA50, not on an edge: while holding, that state changes nothing |
| `Backtest.RunAllInOne` | app.py:157-168 | after every iteration exactly one of cash and coins is positive and the other is 0 |
| `Backtest.OutcomePositive` | app.py:170 | the reported result (cash, or coins marked to the last price) is positive |
| `Backtest.ShortSeriesKeepsCash` | app.py:157-170 | with at most 50 prices the loop does not run and the result is exactly 1000 |
| `Backtest.NoGoldenStateKeepsCash` | app.py:157-170 | if SMA20 > SMA50 never holds from index 50 on, the result is exactly 1000 |
| `Backtest.LoopSeesDefinedAverages` | app.py:160-166 | on the computed SMA columns both averages are defined at every index the loop visits |
| `Risk.RiskReward` | app.py:184-187 | the ratio is computed iff entry, stop-loss and take-profit are all positive, and then ratio × (entry − stop-loss) = take-profit − entry |
| `Risk.LongRatioAtLeast` | app.py:185-187 | with the stop below the entry, ratio ≥ k iff the reward is at least k times the risk |
| `Risk.RatioExample` | app.py:184-187 | entry 100, stop-loss 90, take-profit 130 gives ratio 3 |
| `TradeLog.Appended` | app.py:201-206 | appending makes the log one longer, keeps every earlier entry, and puts the new trade last |
| `TradeLog.AppendedAllConcatenates` | app.py:199-207 | logging trades one after another yields the old log followed by the new trades in logging order |
| `TradeLog.Log.constructor` | app.py:26-30 | the in-memory log starts as the loaded list |
| `TradeLog.Log.Append` | app.py:200-207 | `trades.append` makes the list the old list with the trade appended |

## Left out

- The Streamlit page: widgets, layout, buttons, metrics and messages (app.py:8, 101-147, 153-155, 172, 178-182, 193-199, 209-217).
- The CoinGecko HTTP requests and the 120-second `st.cache_data` cache (app.py:40-51). They are network I/O and a library cache; the model takes the price column as input.
- The time column and its datetime conversion (app.py:49-50), and the Plotly chart (app.py:123-132).
- Reading and writing `trades.json` (app.py:26-34). They are file I/O; the log is modelled in memory, starting from the loaded list.
- IEEE floating point: rounding error in pandas' rolling sums and in the EMA, and `round(..., 2)` on display (app.py:172, 187). The model computes over exact reals, and NaN is `None`.
- `Backtest.RunBacktest`: requires every price to be positive, as market prices are; a zero price would make the source's `cash / price` infinite.
- `Risk.RiskReward`: requires entry ≠ stop-loss when all three prices are positive; there the source raises a division-by-zero error.
- `Signal.AiSignal`: requires a non-empty frame; on an empty frame the source's `iloc[-1]` raises.
